/**
 * The completion distribution card: the athletes counted into the three completion
 * bands, shown as a donut of the non-empty bands and as a bar chart of risk levels.
 */
module AttendanceCharts {
  import opened Wrappers
  import opened Seqs
  import opened AttendanceReport

  predicate IsExcellent(a: ReportAthlete) {
    BandOf(Rate(a)) == Excellent
  }

  predicate IsPartial(a: ReportAthlete) {
    BandOf(Rate(a)) == Partial
  }

  predicate IsNeedsWork(a: ReportAthlete) {
    BandOf(Rate(a)) == NeedsWork
  }

  /** The `forEach` that counts the athletes of each band; every athlete falls in exactly one. */
  method CountBands(athletes: seq<ReportAthlete>) returns (excellent: nat, partial: nat, needsWork: nat)
    ensures excellent == CountWhere(athletes, IsExcellent)
    ensures partial == CountWhere(athletes, IsPartial)
    ensures needsWork == CountWhere(athletes, IsNeedsWork)
    ensures excellent + partial + needsWork == |athletes|
  {
    excellent, partial, needsWork := 0, 0, 0;
    var i := 0;
    while i < |athletes|
      invariant 0 <= i <= |athletes|
      invariant excellent == CountWhere(athletes[..i], IsExcellent)
      invariant partial == CountWhere(athletes[..i], IsPartial)
      invariant needsWork == CountWhere(athletes[..i], IsNeedsWork)
      invariant excellent + partial + needsWork == i
    {
      var a := athletes[i];
      assert athletes[..i + 1] == athletes[..i] + [a];
      CountAppend(athletes[..i], a, IsExcellent);
      CountAppend(athletes[..i], a, IsPartial);
      CountAppend(athletes[..i], a, IsNeedsWork);
      var rate := Rate(a);
      if rate >= 80.0 {
        excellent := excellent + 1;
      } else if rate >= 50.0 {
        partial := partial + 1;
      } else {
        needsWork := needsWork + 1;
      }
      i := i + 1;
    }
    assert athletes[..i] == athletes;
  }

  datatype Slice = Slice(name: string, value: nat)

  function Total(slices: seq<Slice>): nat {
    if slices == [] then 0 else slices[0].value + Total(slices[1..])
  }

  predicate NonEmpty(s: Slice) {
    s.value > 0
  }

  /** Dropping the empty slices keeps the total. */
  lemma {:induction false} DropEmptyKeepsTotal(slices: seq<Slice>)
    ensures Total(Filter(slices, NonEmpty)) == Total(slices)
  {
    if slices != [] {
      DropEmptyKeepsTotal(slices[1..]);
      var rest := Filter(slices[1..], NonEmpty);
      var kept := Filter(slices, NonEmpty);
      if NonEmpty(slices[0]) {
        assert kept == [slices[0]] + rest;
        assert kept != [] && kept[0] == slices[0] && kept[1..] == rest;
      } else {
        assert kept == rest;
      }
    }
  }

  /** The donut's three slices before the empty ones are dropped: each band's name and count. */
  function BandSlices(athletes: seq<ReportAthlete>): seq<Slice> {
    [Slice("80%+ Complete", CountWhere(athletes, IsExcellent)),
     Slice("50-79% Complete", CountWhere(athletes, IsPartial)),
     Slice("Below 50%", CountWhere(athletes, IsNeedsWork))]
  }

  /** `completionData`: the three bands without the empty ones, none without athletes. */
  method CompletionData(athletes: Option<seq<ReportAthlete>>) returns (data: seq<Slice>)
    ensures data == [] <==> athletes.None? || athletes.value == []
    ensures athletes.Some? && athletes.value != [] ==> data == Filter(BandSlices(athletes.value), NonEmpty)
    ensures |data| <= 3
    ensures forall k :: 0 <= k < |data| ==> data[k].value > 0
    ensures athletes.Some? ==> Total(data) == |athletes.value|
  {
    if athletes.None? || |athletes.value| == 0 {
      return [];
    }
    var excellent, partial, needsWork := CountBands(athletes.value);
    var all := [Slice("80%+ Complete", excellent), Slice("50-79% Complete", partial), Slice("Below 50%", needsWork)];
    assert all == BandSlices(athletes.value);
    data := Filter(all, NonEmpty);
    DropEmptyKeepsTotal(all);
    assert Total(all[2..]) == needsWork;
    assert Total(all[1..]) == partial + needsWork;
    assert Total(all) == |athletes.value|;
  }

  datatype RiskBar = RiskBar(category: string, athletes: nat)

  /** `riskData`: the same bands as low, medium and high risk; always the three bars once there are athletes. */
  method RiskData(athletes: Option<seq<ReportAthlete>>) returns (data: seq<RiskBar>)
    ensures athletes.None? || athletes.value == [] ==> data == []
    ensures athletes.Some? && athletes.value != [] ==>
              |data| == 3 &&
              data[0] == RiskBar("Low Risk", CountWhere(athletes.value, IsExcellent)) &&
              data[1] == RiskBar("Medium", CountWhere(athletes.value, IsPartial)) &&
              data[2] == RiskBar("High Risk", CountWhere(athletes.value, IsNeedsWork))
    ensures (forall k :: 0 <= k < |data| ==> data[k].athletes == 0) <==> athletes.None? || athletes.value == []
  {
    if athletes.None? || |athletes.value| == 0 {
      return [];
    }
    var low, medium, high := CountBands(athletes.value);
    data := [RiskBar("Low Risk", low), RiskBar("Medium", medium), RiskBar("High Risk", high)];
  }

  /** The "No risk data" view: no bar has an athlete. */
  predicate ShowsNoRiskData(data: seq<RiskBar>) {
    !exists k :: 0 <= k < |data| && data[k].athletes > 0
  }
}
