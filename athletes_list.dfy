/**
 * The athletes list: each athlete's statistics, merged from the 7-day and 30-day
 * attendance reports (looked up by athlete id), the risk rules and risk icon drawn from
 * them, the list filter, the risk counts, the batch list and the session sparkline.
 */
module AthletesList {
  import opened Wrappers
  import opened Numeric
  import opened Text
  import opened Seqs

  datatype ListAthlete = ListAthlete(id: string, name: Option<string>, email: Option<string>,
                                     batch: Option<string>, hasHealthIssues: bool)

  /** One athlete's line of an attendance report. */
  datatype AttendanceRecord = AttendanceRecord(id: string, attendanceRate: real, avgCompletionRate: real,
                                               totalSessions: nat, completedSessions: nat, lastSession: Option<string>)

  /** The two reports; `None` when a request failed. */
  datatype AttendanceData = AttendanceData(week: Option<seq<AttendanceRecord>>, month: Option<seq<AttendanceRecord>>)

  /** The lookup built by `forEach(a => { map[a.id] = a; })`: a later record with the same id overwrites. */
  function LookupOf(records: seq<AttendanceRecord>): map<string, AttendanceRecord> {
    if records == [] then map[]
    else LookupOf(records[..|records| - 1])[records[|records| - 1].id := records[|records| - 1]]
  }

  /** An id is in the lookup exactly when some record carries it, and maps to a record with that id. */
  lemma {:induction false} LookupOfKeys(records: seq<AttendanceRecord>)
    ensures forall id :: id in LookupOf(records) <==> exists k :: 0 <= k < |records| && records[k].id == id
    ensures forall id :: id in LookupOf(records) ==> LookupOf(records)[id].id == id && LookupOf(records)[id] in records
  {
    if records != [] {
      var init := records[..|records| - 1];
      LookupOfKeys(init);
      assert records == init + [records[|records| - 1]];
      forall id | exists k :: 0 <= k < |records| && records[k].id == id
        ensures id in LookupOf(records)
      {
        var k :| 0 <= k < |records| && records[k].id == id;
        if k < |records| - 1 {
          assert init[k].id == id;
        }
      }
      forall id | id in LookupOf(init)
        ensures exists k :: 0 <= k < |records| && records[k].id == id
      {
        var k :| 0 <= k < |init| && init[k].id == id;
        assert records[k].id == id;
      }
    }
  }

  /** The record the lookup holds for an id is the last record carrying that id. */
  lemma {:induction false} LookupOfLast(records: seq<AttendanceRecord>, m: nat)
    requires m < |records|
    requires forall j :: m < j < |records| ==> records[j].id != records[m].id
    ensures records[m].id in LookupOf(records) && LookupOf(records)[records[m].id] == records[m]
  {
    var n := |records| - 1;
    if m < n {
      var init := records[..n];
      assert init[m] == records[m];
      assert forall j :: m < j < |init| ==> init[j] == records[j];
      LookupOfLast(init, m);
    }
  }

  /** The lookup map, filled by the `forEach` loop. */
  method BuildLookup(records: seq<AttendanceRecord>) returns (lookup: map<string, AttendanceRecord>)
    ensures lookup == LookupOf(records)
  {
    lookup := map[];
    var i := 0;
    while i < |records|
      invariant 0 <= i <= |records|
      invariant lookup == LookupOf(records[..i])
    {
      assert records[..i + 1][..i] == records[..i];
      lookup := lookup[records[i].id := records[i]];
      i := i + 1;
    }
    assert records[..i] == records;
  }

  datatype Trend = Up | Down

  datatype RiskLevel = Low | Medium | High

  datatype RiskIcon = Critical | HighIcon | MediumIcon | AttendanceIcon | NoIcon

  datatype Stats = Stats(
    attendance7d: int,
    attendance30d: int,
    avgCompletion: real,
    formScore: real,
    consistencyScore: real,
    formTrend: Trend,
    consistencyTrend: Trend,
    totalSessions: nat,
    completedSessions: nat,
    lastSession: Option<string>,
    risk: RiskLevel,
    riskIcon: RiskIcon)

  /**
   * The risk rules as written: at risk with health issues; otherwise monitored when the
   * 30-day attendance or the completion is below 50; the "below 30" rule after it.
   */
  function Risk(hasHealthIssues: bool, attendance30d: int, avgCompletion: real): RiskLevel {
    if hasHealthIssues then High
    else if attendance30d < 50 || avgCompletion < 50.0 then Medium
    else if attendance30d < 30 || avgCompletion < 30.0 then High
    else Low
  }

  /** The "below 30" rule is never reached: the risk is high exactly with health issues. */
  lemma RiskHighOnlyWithHealthIssues(hasHealthIssues: bool, attendance30d: int, avgCompletion: real)
    ensures Risk(hasHealthIssues, attendance30d, avgCompletion) == High <==> hasHealthIssues
    ensures Risk(hasHealthIssues, attendance30d, avgCompletion) == Medium <==>
              !hasHealthIssues && (attendance30d < 50 || avgCompletion < 50.0)
    ensures Risk(hasHealthIssues, attendance30d, avgCompletion) == Low <==>
              !hasHealthIssues && attendance30d >= 50 && avgCompletion >= 50.0
  {
  }

  /** The icon: critical for a high risk with a form below 5, then high, medium, a 7-day attendance below 50, none. */
  function IconFor(risk: RiskLevel, formScore: real, attendance7d: int): (icon: RiskIcon)
    ensures icon == Critical <==> risk == High && formScore < 5.0
    ensures icon == HighIcon <==> risk == High && formScore >= 5.0
    ensures icon == MediumIcon <==> risk == Medium
    ensures icon == AttendanceIcon <==> risk == Low && attendance7d < 50
    ensures icon == NoIcon <==> risk == Low && attendance7d >= 50
  {
    match risk
    case High => if formScore < 5.0 then Critical else HighIcon
    case Medium => MediumIcon
    case Low => if attendance7d < 50 then AttendanceIcon else NoIcon
  }

  /** The statistics of one athlete from its week and month records (either may be missing). */
  function StatsFor(athlete: ListAthlete, week: Option<AttendanceRecord>, month: Option<AttendanceRecord>): (s: Stats)
    ensures s.consistencyScore <= 10.0
    ensures week.None? ==> s.attendance7d == 0
    ensures month.None? ==> s.attendance30d == 0 && s.avgCompletion == 0.0 && s.totalSessions == 0 &&
                            s.completedSessions == 0 && s.lastSession == None && s.consistencyScore == 0.0
    ensures s.formTrend == Up <==> (if week.Some? then week.value.avgCompletionRate else 0.0) >= s.avgCompletion
    ensures s.consistencyTrend == Up <==> week.Some? && week.value.totalSessions >= 3
    ensures s.formScore == s.avgCompletion / 10.0
    ensures s.lastSession.Some? ==> s.lastSession.value != ""
    ensures s.risk == Risk(athlete.hasHealthIssues, s.attendance30d, s.avgCompletion)
    ensures s.riskIcon == IconFor(s.risk, s.formScore, s.attendance7d)
  {
    var attendance7d := if week.Some? then Round(week.value.attendanceRate) else 0;
    var attendance30d := if month.Some? then Round(month.value.attendanceRate) else 0;
    var avgCompletion := if month.Some? then month.value.avgCompletionRate else 0.0;
    var totalSessions := if month.Some? then month.value.totalSessions else 0;
    var completedSessions := if month.Some? then month.value.completedSessions else 0;
    var lastSession := if month.Some? && month.value.lastSession.Some? && month.value.lastSession.value != "" then month.value.lastSession else None;
    var formScore := avgCompletion / 10.0;
    var consistencyScore := MinReal(10.0, totalSessions as real / 20.0 * 10.0);
    var weekCompletion := if week.Some? then week.value.avgCompletionRate else 0.0;
    var formTrend := if weekCompletion >= avgCompletion then Up else Down;
    var weekSessions := if week.Some? then week.value.totalSessions else 0;
    var consistencyTrend := if weekSessions as real >= 5.0 * 0.6 then Up else Down;
    var risk := Risk(athlete.hasHealthIssues, attendance30d, avgCompletion);
    Stats(attendance7d, attendance30d, avgCompletion, formScore, consistencyScore, formTrend, consistencyTrend,
          totalSessions, completedSessions, lastSession, risk, IconFor(risk, formScore, attendance7d))
  }

  function Find(lookup: map<string, AttendanceRecord>, id: string): Option<AttendanceRecord> {
    if id in lookup then Some(lookup[id]) else None
  }

  /** An athlete with its statistics, `None` without the month report. */
  datatype Enriched = Enriched(athlete: ListAthlete, stats: Option<Stats>)

  /** `enrichedAthletes`: without the month report every athlete has no statistics. */
  function EnrichedAthletes(athletes: seq<ListAthlete>, data: AttendanceData): (r: seq<Enriched>)
    ensures |r| == |athletes|
    ensures forall k :: 0 <= k < |r| ==> r[k].athlete == athletes[k]
    ensures data.month.None? ==> forall k :: 0 <= k < |r| ==> r[k].stats.None?
    ensures data.month.Some? ==> forall k :: 0 <= k < |r| ==> r[k].stats.Some?
  {
    if data.month.None? then seq(|athletes|, k requires 0 <= k < |athletes| => Enriched(athletes[k], None))
    else
      var weekMap := LookupOf(data.week.GetOr([]));
      var monthMap := LookupOf(data.month.value);
      seq(|athletes|, k requires 0 <= k < |athletes| =>
        Enriched(athletes[k], Some(StatsFor(athletes[k], Find(weekMap, athletes[k].id), Find(monthMap, athletes[k].id)))))
  }

  /** An athlete missing from the month report gets zeros for the 30-day figures. */
  lemma AbsentFromMonthGetsZeros(athletes: seq<ListAthlete>, data: AttendanceData, k: nat)
    requires k < |athletes| && data.month.Some?
    requires forall j :: 0 <= j < |data.month.value| ==> data.month.value[j].id != athletes[k].id
    ensures var s := EnrichedAthletes(athletes, data)[k].stats.value;
            s.attendance30d == 0 && s.avgCompletion == 0.0 && s.totalSessions == 0 && s.consistencyScore == 0.0
  {
    LookupOfKeys(data.month.value);
  }

  /** An athlete missing from the week report (or without one) gets zeros for the 7-day figures. */
  lemma AbsentFromWeekGetsZeros(athletes: seq<ListAthlete>, data: AttendanceData, k: nat)
    requires k < |athletes| && data.month.Some?
    requires forall j :: 0 <= j < |data.week.GetOr([])| ==> data.week.GetOr([])[j].id != athletes[k].id
    ensures var s := EnrichedAthletes(athletes, data)[k].stats.value;
            s.attendance7d == 0 && s.consistencyTrend == Down && (s.formTrend == Up <==> s.avgCompletion <= 0.0)
  {
    LookupOfKeys(data.week.GetOr([]));
  }

  /**
   * An athlete in the month report takes its 30-day figures from the last record carrying
   * its id.
   */
  lemma MonthFiguresFromOwnRecord(athletes: seq<ListAthlete>, data: AttendanceData, k: nat, m: nat)
    requires k < |athletes| && data.month.Some? && m < |data.month.value|
    requires data.month.value[m].id == athletes[k].id
    requires forall j :: m < j < |data.month.value| ==> data.month.value[j].id != athletes[k].id
    ensures var s := EnrichedAthletes(athletes, data)[k].stats.value;
            var rec := data.month.value[m];
            s.attendance30d == Round(rec.attendanceRate) && s.avgCompletion == rec.avgCompletionRate &&
            s.totalSessions == rec.totalSessions && s.completedSessions == rec.completedSessions
  {
    LookupOfLast(data.month.value, m);
  }

  /**
   * An athlete in the week report takes its 7-day attendance and its consistency trend
   * from the last record carrying its id.
   */
  lemma WeekFiguresFromOwnRecord(athletes: seq<ListAthlete>, data: AttendanceData, k: nat, w: nat)
    requires k < |athletes| && data.month.Some? && data.week.Some? && w < |data.week.value|
    requires data.week.value[w].id == athletes[k].id
    requires forall j :: w < j < |data.week.value| ==> data.week.value[j].id != athletes[k].id
    ensures var s := EnrichedAthletes(athletes, data)[k].stats.value;
            var rec := data.week.value[w];
            s.attendance7d == Round(rec.attendanceRate) &&
            (s.consistencyTrend == Up <==> rec.totalSessions >= 3) &&
            (s.formTrend == Up <==> rec.avgCompletionRate >= s.avgCompletion)
  {
    LookupOfLast(data.week.value, w);
  }

  /** The risk a list entry shows: `stats?.risk || { level: 'low' }`. */
  function ShownRisk(e: Enriched): RiskLevel {
    if e.stats.Some? then e.stats.value.risk else Low
  }

  function BatchOf(a: ListAthlete): string {
    if a.batch.Some? && a.batch.value != "" then a.batch.value else "General"
  }

  /** The text searched: the name, else the email, else nothing. */
  function SearchText(a: ListAthlete): string {
    if a.name.Some? && a.name.value != "" then a.name.value
    else if a.email.Some? && a.email.value != "" then a.email.value
    else ""
  }

  /** The filter settings: search text, risk chip, batch, low-attendance and declining-form toggles. */
  datatype ListFilter = ListFilter(search: string, risk: string, batch: string, attendanceLow: bool, formDeclining: bool)

  predicate RiskMatches(chip: string, level: RiskLevel) {
    chip == "all" || (chip == "red" && level == High) || (chip == "amber" && level == Medium) ||
    (chip == "green" && level == Low)
  }

  /** An athlete is shown when every part of the filter holds. */
  predicate Shown(e: Enriched, f: ListFilter) {
    IncludesIgnoringCase(SearchText(e.athlete), f.search) &&
    RiskMatches(f.risk, ShownRisk(e)) &&
    (f.batch == "all" || BatchOf(e.athlete) == f.batch) &&
    (!f.attendanceLow || (if e.stats.Some? then e.stats.value.attendance7d else 0) < 75) &&
    (!f.formDeclining || (e.stats.Some? && e.stats.value.formTrend == Down))
  }

  function FilteredAthletes(enriched: seq<Enriched>, f: ListFilter): (r: seq<Enriched>)
    ensures forall k :: 0 <= k < |r| ==> Shown(r[k], f)
  {
    Filter(enriched, e => Shown(e, f))
  }

  /** An athlete is listed exactly when it passes the filter. */
  lemma FilteredAthletesMembers(enriched: seq<Enriched>, f: ListFilter)
    ensures forall e :: e in FilteredAthletes(enriched, f) <==> e in enriched && Shown(e, f)
  {
    FilterMembers(enriched, e => Shown(e, f));
  }

  /** Without statistics, the declining-form toggle hides every athlete. */
  lemma FormToggleNeedsStats(enriched: seq<Enriched>, f: ListFilter)
    requires f.formDeclining && forall k :: 0 <= k < |enriched| ==> enriched[k].stats.None?
    ensures FilteredAthletes(enriched, f) == []
  {
    CountZero(enriched, e => Shown(e, f));
    CountIsFilterLength(enriched, e => Shown(e, f));
  }

  predicate HasRisk(e: Enriched, level: RiskLevel) {
    e.stats.Some? && e.stats.value.risk == level
  }

  datatype RiskCounts = RiskCounts(high: nat, medium: nat, low: nat)

  /** `riskCounts`: the athletes with statistics, by risk level. */
  function CountRisks(enriched: seq<Enriched>): RiskCounts {
    RiskCounts(CountWhere(enriched, e => HasRisk(e, High)), CountWhere(enriched, e => HasRisk(e, Medium)),
               CountWhere(enriched, e => HasRisk(e, Low)))
  }

  /** With the month report the three counts add up to the number of athletes; without it they are all 0. */
  lemma RiskCountsTotal(athletes: seq<ListAthlete>, data: AttendanceData)
    ensures var c := CountRisks(EnrichedAthletes(athletes, data));
            (data.month.Some? ==> c.high + c.medium + c.low == |athletes|) &&
            (data.month.None? ==> c.high == 0 && c.medium == 0 && c.low == 0)
  {
    var enriched := EnrichedAthletes(athletes, data);
    if data.month.Some? {
      CountThreeWay(enriched, e => HasRisk(e, High), e => HasRisk(e, Medium), e => HasRisk(e, Low));
    } else {
      CountZero(enriched, e => HasRisk(e, High));
      CountZero(enriched, e => HasRisk(e, Medium));
      CountZero(enriched, e => HasRisk(e, Low));
    }
  }

  /** `uniqueBatches`: each batch once (a missing batch is "General"), in order of first appearance. */
  function UniqueBatches(enriched: seq<Enriched>): (r: seq<string>)
    ensures forall b :: b in r <==> exists k :: 0 <= k < |enriched| && BatchOf(enriched[k].athlete) == b
    ensures forall i, j :: 0 <= i < j < |r| ==> r[i] != r[j]
  {
    var batches := seq(|enriched|, k requires 0 <= k < |enriched| => BatchOf(enriched[k].athlete));
    assert forall b :: b in batches <==> exists k :: 0 <= k < |enriched| && BatchOf(enriched[k].athlete) == b by {
      forall b | exists k :: 0 <= k < |enriched| && BatchOf(enriched[k].athlete) == b
        ensures b in batches
      {
        var k :| 0 <= k < |enriched| && BatchOf(enriched[k].athlete) == b;
        assert batches[k] == b;
      }
    }
    Distinct(batches)
  }

  /** `MiniSparkline`: seven bars, of which the last `min(sessions, 7)` are active. */
  method MiniSparkline(sessions: int) returns (bars: seq<int>)
    ensures |bars| == 7
    ensures var active := if sessions > 0 then (if sessions < 7 then sessions else 7) else 0;
            forall k :: 0 <= k < 7 ==> bars[k] == (if k >= 7 - active then 1 else 0)
  {
    var a := new int[7](_ => 0);
    var sessionsPerDay := if sessions > 0 then (if sessions < 7 then sessions else 7) else 0;
    var i := 0;
    while i < sessionsPerDay
      invariant 0 <= i <= sessionsPerDay
      invariant forall k :: 0 <= k < 7 ==> a[k] == (if k >= 7 - i then 1 else 0)
    {
      a[6 - i] := 1;
      i := i + 1;
    }
    bars := a[..];
  }
}
