/**
 * The athlete leaderboard card: the ten best athletes by completion rate, the summary
 * of all rates (rounded mean, best, worst) and the styling of one row.
 */
module Leaderboard {
  import opened Wrappers
  import opened Numeric
  import opened Text
  import opened AttendanceReport

  /** `sortedAthletes`: the ranking cut to ten rows, none without athletes. */
  function SortedAthletes(athletes: Option<seq<ReportAthlete>>): (r: seq<ReportAthlete>)
    ensures athletes.None? ==> r == []
    ensures athletes.Some? ==> |r| == (if |athletes.value| < 10 then |athletes.value| else 10)
    ensures athletes.Some? ==> multiset(r) <= multiset(athletes.value)
    ensures forall i, j :: 0 <= i < j < |r| ==> Rate(r[i]) >= Rate(r[j])
    ensures athletes.Some? ==>
              forall i, j :: 0 <= i < |r| && |r| <= j < |athletes.value| ==>
                Rate(r[i]) >= Rate(RankedByRate(athletes.value)[j])
    ensures athletes.Some? ==>
              forall a :: a in multiset(athletes.value) - multiset(r) ==>
                forall i :: 0 <= i < |r| ==> Rate(r[i]) >= Rate(a)
  {
    if athletes.None? || |athletes.value| == 0 then [] else TopByRate(athletes.value, 10)
  }

  function Rates(athletes: seq<ReportAthlete>): (r: seq<real>)
    ensures |r| == |athletes| && forall k :: 0 <= k < |r| ==> r[k] == Rate(athletes[k])
  {
    seq(|athletes|, k requires 0 <= k < |athletes| => Rate(athletes[k]))
  }

  function Sum(xs: seq<real>): real {
    if xs == [] then 0.0 else xs[0] + Sum(xs[1..])
  }

  /** `Math.max(...xs)`: an entry no smaller than any other. */
  function Max(xs: seq<real>): (m: real)
    requires xs != []
    ensures m in xs && forall k :: 0 <= k < |xs| ==> xs[k] <= m
  {
    if |xs| == 1 then xs[0]
    else
      var rest := Max(xs[1..]);
      assert forall k :: 1 <= k < |xs| ==> xs[k] == xs[1..][k - 1];
      if xs[0] >= rest then xs[0] else rest
  }

  /** `Math.min(...xs)`: an entry no larger than any other. */
  function Min(xs: seq<real>): (m: real)
    requires xs != []
    ensures m in xs && forall k :: 0 <= k < |xs| ==> m <= xs[k]
  {
    if |xs| == 1 then xs[0]
    else
      var rest := Min(xs[1..]);
      assert forall k :: 1 <= k < |xs| ==> xs[k] == xs[1..][k - 1];
      if xs[0] <= rest then xs[0] else rest
  }

  /** Entries between two bounds add up to a total between the bounds scaled by the count. */
  lemma {:induction false} SumBetween(xs: seq<real>, lo: real, hi: real)
    requires forall k :: 0 <= k < |xs| ==> lo <= xs[k] <= hi
    ensures |xs| as real * lo <= Sum(xs) <= |xs| as real * hi
  {
    if xs != [] {
      SumBetween(xs[1..], lo, hi);
    }
  }

  datatype LeaderSummary = LeaderSummary(avg: int, top: real, low: real)

  /** `summaryStats`: zeros without athletes, else the rounded mean, the best and the worst rate. */
  function SummaryStats(athletes: Option<seq<ReportAthlete>>): (s: LeaderSummary)
    ensures athletes.None? || athletes.value == [] ==> s == LeaderSummary(0, 0.0, 0.0)
    ensures athletes.Some? && athletes.value != [] ==>
              s.top in Rates(athletes.value) && s.low in Rates(athletes.value) &&
              forall k :: 0 <= k < |athletes.value| ==> s.low <= Rate(athletes.value[k]) <= s.top
    ensures athletes.Some? && athletes.value != [] ==>
              s.avg as real - 0.5 <= Sum(Rates(athletes.value)) / |athletes.value| as real < s.avg as real + 0.5
  {
    if athletes.None? || |athletes.value| == 0 then LeaderSummary(0, 0.0, 0.0)
    else
      var rates := Rates(athletes.value);
      LeaderSummary(Round(Sum(rates) / |rates| as real), Max(rates), Min(rates))
  }

  /** Entries between two bounds have a mean between the same bounds. */
  lemma MeanWithin(xs: seq<real>, lo: real, hi: real)
    requires xs != []
    requires forall k :: 0 <= k < |xs| ==> lo <= xs[k] <= hi
    ensures lo <= Sum(xs) / |xs| as real <= hi
  {
    SumBetween(xs, lo, hi);
    QuotientBetween(Sum(xs), |xs| as real, lo, hi);
  }

  /** The rounded mean lies between the rounded worst and best rates. */
  lemma SummaryOrdered(athletes: seq<ReportAthlete>)
    requires athletes != []
    ensures var s := SummaryStats(Some(athletes));
            Round(s.low) <= s.avg <= Round(s.top)
  {
    var rates := Rates(athletes);
    var lo, hi, mean := Min(rates), Max(rates), Sum(rates) / |rates| as real;
    MeanWithin(rates, lo, hi);
    RoundMonotone(lo, mean);
    RoundMonotone(mean, hi);
  }

  /** With whole-number rates the rounded mean lies between the worst and the best rate. */
  lemma WholeRatesSummaryOrdered(athletes: seq<ReportAthlete>)
    requires athletes != []
    requires forall k :: 0 <= k < |athletes| ==> Rate(athletes[k]).Floor as real == Rate(athletes[k])
    ensures var s := SummaryStats(Some(athletes));
            s.low <= s.avg as real <= s.top
  {
    var s := SummaryStats(Some(athletes));
    SummaryOrdered(athletes);
    var rates := Rates(athletes);
    var i :| 0 <= i < |rates| && rates[i] == s.low;
    var j :| 0 <= j < |rates| && rates[j] == s.top;
    RoundOfInteger(s.low.Floor);
    RoundOfInteger(s.top.Floor);
  }

  datatype RankStyle = Gold | Silver | Bronze | Plain

  /** `getRankStyle`: the podium ranks 1, 2 and 3 have their own style, every other rank the plain one. */
  function RankStyleOf(rank: int): (s: RankStyle)
    ensures s == Gold <==> rank == 1
    ensures s == Silver <==> rank == 2
    ensures s == Bronze <==> rank == 3
  {
    if rank == 1 then Gold else if rank == 2 then Silver else if rank == 3 then Bronze else Plain
  }

  datatype PerformanceIcon = TrendingUp | Steady | TrendingDown

  /** `getPerformanceIcon`, and the colour of the rate beside it, follow the completion band. */
  function PerformanceIconOf(a: ReportAthlete): (icon: PerformanceIcon)
    ensures icon == TrendingUp <==> Rate(a) >= 80.0
    ensures icon == Steady <==> 50.0 <= Rate(a) < 80.0
    ensures icon == TrendingDown <==> Rate(a) < 50.0
  {
    match BandOf(Rate(a))
    case Excellent => TrendingUp
    case Partial => Steady
    case NeedsWork => TrendingDown
  }

  /** The row's name: the athlete's name, else `Athlete <rank>`; never empty. */
  function DisplayName(a: ReportAthlete, rank: int): (name: string)
    ensures name != ""
    ensures Present(a.name) ==> name == a.name.value
  {
    if Present(a.name) then a.name.value else "Athlete " + IntToString(rank)
  }
}
