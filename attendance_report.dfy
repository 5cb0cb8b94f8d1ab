/**
 * The attendance report the attendance page receives for a range, and what its cards
 * share: a missing count or rate reads as 0, the three completion bands (80% and up,
 * 50% to 80%, below 50%) and the ranking of athletes by completion rate.
 */
module AttendanceReport {
  import opened Wrappers
  import opened Numeric
  import opened Seqs
  import opened Sorting

  /** One day of the calendar: its `YYYY-MM-DD` date and its session count, either of which may be missing. */
  datatype CalendarDay = CalendarDay(date: Option<string>, count: Option<nat>)

  datatype ReportAthlete = ReportAthlete(
    id: Option<string>,
    name: Option<string>,
    athleteName: Option<string>,
    avgCompletionRate: Option<real>,
    totalSessions: Option<int>,
    sessionDates: Option<seq<string>>)

  /** The report's summary; the page does not pass it on to the cards. */
  datatype Summary = Summary(totalAthletes: Option<nat>, totalSessions: Option<nat>,
                             activeAthletes: Option<nat>, inactiveAthletes: Option<nat>)

  datatype Report = Report(calendar: Option<seq<CalendarDay>>, athletes: Option<seq<ReportAthlete>>, summary: Option<Summary>)

  /** `d.count || 0`. */
  function Count(d: CalendarDay): nat {
    d.count.GetOr(0)
  }

  /** `a.avgCompletionRate || 0`. */
  function Rate(a: ReportAthlete): real {
    a.avgCompletionRate.GetOr(0.0)
  }

  /** `a.totalSessions > 0`: false when the field is missing. */
  predicate HasSessions(a: ReportAthlete) {
    a.totalSessions.Some? && a.totalSessions.value > 0
  }

  /** A non-empty text field, as JavaScript's `||` tests it. */
  predicate Present(s: Option<string>) {
    s.Some? && s.value != ""
  }

  datatype Band = Excellent | Partial | NeedsWork

  /** The completion bands every card uses: 80 and up, 50 and up, below 50. */
  function BandOf(rate: real): (b: Band)
    ensures b == Excellent <==> rate >= 80.0
    ensures b == Partial <==> 50.0 <= rate < 80.0
    ensures b == NeedsWork <==> rate < 50.0
  {
    if rate >= 80.0 then Excellent else if rate >= 50.0 then Partial else NeedsWork
  }

  function BandRank(b: Band): nat {
    match b
    case NeedsWork => 0
    case Partial => 1
    case Excellent => 2
  }

  /** A higher rate never falls in a lower band. */
  lemma BandMonotone(x: real, y: real)
    requires x <= y
    ensures BandRank(BandOf(x)) <= BandRank(BandOf(y))
  {
  }

  /** The ranking key: a higher rate comes first. */
  function RankKey(a: ReportAthlete): real {
    -Rate(a)
  }

  /** `[...athletes].sort((a, b) => (b.avgCompletionRate || 0) - (a.avgCompletionRate || 0))`. */
  function RankedByRate(athletes: seq<ReportAthlete>): (r: seq<ReportAthlete>)
    ensures multiset(r) == multiset(athletes)
    ensures forall i, j :: 0 <= i < j < |r| ==> Rate(r[i]) >= Rate(r[j])
  {
    SortBySorted(athletes, RankKey);
    SortBy(athletes, RankKey)
  }

  /** Cutting a list ranked best first leaves every entry before the cut at least as good as every entry after it. */
  lemma RankedSplit(top: seq<ReportAthlete>, rest: seq<ReportAthlete>)
    requires forall i, j :: 0 <= i < j < |top + rest| ==> Rate((top + rest)[i]) >= Rate((top + rest)[j])
    ensures forall i, j :: 0 <= i < |top| && 0 <= j < |rest| ==> Rate(top[i]) >= Rate(rest[j])
  {
    forall i, j | 0 <= i < |top| && 0 <= j < |rest|
      ensures Rate(top[i]) >= Rate(rest[j])
    {
      assert top[i] == (top + rest)[i] && rest[j] == (top + rest)[|top| + j];
    }
  }

  /**
   * When every entry of `top` is at least as good as every entry of `rest`, no athlete of
   * `top` and `rest` together that is left out of `top` beats one in it.
   */
  lemma LeftOutNoBetter(top: seq<ReportAthlete>, rest: seq<ReportAthlete>, whole: multiset<ReportAthlete>)
    requires whole == multiset(top) + multiset(rest)
    requires forall i, j :: 0 <= i < |top| && 0 <= j < |rest| ==> Rate(top[i]) >= Rate(rest[j])
    ensures forall a :: a in whole - multiset(top) ==>
              forall i :: 0 <= i < |top| ==> Rate(top[i]) >= Rate(a)
  {
    assert whole - multiset(top) == multiset(rest);
    forall a | a in multiset(rest)
      ensures forall i :: 0 <= i < |top| ==> Rate(top[i]) >= Rate(a)
    {
      var j :| 0 <= j < |rest| && rest[j] == a;
    }
  }

  /**
   * The first `k` entries of a list ranked best first, `whole` being its entries: they keep
   * the order, are some of the entries, and none left out beats them.
   */
  lemma PrefixOfRanking(ranked: seq<ReportAthlete>, k: nat, whole: multiset<ReportAthlete>)
    requires k <= |ranked| && whole == multiset(ranked)
    requires forall i, j :: 0 <= i < j < |ranked| ==> Rate(ranked[i]) >= Rate(ranked[j])
    ensures forall i, j :: 0 <= i < j < k ==> Rate(ranked[..k][i]) >= Rate(ranked[..k][j])
    ensures forall i, j :: 0 <= i < k <= j < |ranked| ==> Rate(ranked[..k][i]) >= Rate(ranked[j])
    ensures multiset(ranked[..k]) <= whole
    ensures forall a :: a in whole - multiset(ranked[..k]) ==>
              forall i :: 0 <= i < k ==> Rate(ranked[..k][i]) >= Rate(a)
  {
    var top, rest := ranked[..k], ranked[k..];
    assert ranked == top + rest;
    RankedSplit(top, rest);
    LeftOutNoBetter(top, rest, whole);
  }

  /** The `n` best athletes: a prefix of the ranking, each at least as good as every athlete left out. */
  function TopByRate(athletes: seq<ReportAthlete>, n: nat): (r: seq<ReportAthlete>)
    ensures |r| == if |athletes| < n then |athletes| else n
    ensures multiset(r) <= multiset(athletes)
    ensures forall i, j :: 0 <= i < j < |r| ==> Rate(r[i]) >= Rate(r[j])
    ensures forall i, j :: 0 <= i < |r| && |r| <= j < |athletes| ==> Rate(r[i]) >= Rate(RankedByRate(athletes)[j])
    ensures forall a :: a in multiset(athletes) - multiset(r) ==>
              forall i :: 0 <= i < |r| ==> Rate(r[i]) >= Rate(a)
  {
    var ranked := RankedByRate(athletes);
    var k := if |ranked| < n then |ranked| else n;
    PrefixOfRanking(ranked, k, multiset(athletes));
    ranked[..k]
  }
}
