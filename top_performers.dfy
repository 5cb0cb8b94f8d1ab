/**
 * The top performers card: the five best athletes by completion rate, each with a name,
 * a position badge and a rate colour.
 */
module TopPerformers {
  import opened Wrappers
  import opened Text
  import opened AttendanceReport

  /** `topAthletes`: at most five athletes, best first, none without athletes. */
  function TopAthletes(athletes: Option<seq<ReportAthlete>>): (r: seq<ReportAthlete>)
    ensures athletes.None? ==> r == []
    ensures athletes.Some? ==> |r| == (if |athletes.value| < 5 then |athletes.value| else 5)
    ensures athletes.Some? ==> multiset(r) <= multiset(athletes.value)
    ensures forall i, j :: 0 <= i < j < |r| ==> Rate(r[i]) >= Rate(r[j])
    ensures athletes.Some? ==>
              forall i, j :: 0 <= i < |r| && |r| <= j < |athletes.value| ==>
                Rate(r[i]) >= Rate(RankedByRate(athletes.value)[j])
    ensures athletes.Some? ==>
              forall a :: a in multiset(athletes.value) - multiset(r) ==>
                forall i :: 0 <= i < |r| ==> Rate(r[i]) >= Rate(a)
  {
    if athletes.None? || |athletes.value| == 0 then [] else TopByRate(athletes.value, 5)
  }

  /** The shown name: `name`, else `athleteName`, else `Athlete <position + 1>`; never empty. */
  function PerformerName(a: ReportAthlete, position: nat): (name: string)
    ensures name != ""
    ensures Present(a.name) ==> name == a.name.value
    ensures !Present(a.name) && Present(a.athleteName) ==> name == a.athleteName.value
  {
    if Present(a.name) then a.name.value
    else if Present(a.athleteName) then a.athleteName.value
    else "Athlete " + NatToString(position + 1)
  }

  datatype Badge = FirstBadge | SecondBadge | ThirdBadge | OtherBadge

  /** The position badge: the first three positions have their own, every later one shares one. */
  function BadgeOf(position: nat): (b: Badge)
    ensures b == OtherBadge <==> position >= 3
    ensures b == FirstBadge <==> position == 0
    ensures b == SecondBadge <==> position == 1
    ensures b == ThirdBadge <==> position == 2
  {
    if position == 0 then FirstBadge else if position == 1 then SecondBadge
    else if position == 2 then ThirdBadge else OtherBadge
  }

  datatype RateColour = Emerald | Amber | Gray

  /** The rate colour follows the completion band: emerald from 80, amber from 50, gray below. */
  function RateColourOf(a: ReportAthlete): (c: RateColour)
    ensures c == Emerald <==> Rate(a) >= 80.0
    ensures c == Amber <==> 50.0 <= Rate(a) < 80.0
    ensures c == Gray <==> Rate(a) < 50.0
  {
    match BandOf(Rate(a))
    case Excellent => Emerald
    case Partial => Amber
    case NeedsWork => Gray
  }
}
