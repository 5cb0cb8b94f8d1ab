/**
 * The sessions of a day: the date sent to the backend, the as-planned count, the tab and
 * batch filter, the flag of a session, and the detail view's completion percentage,
 * muscle groups, muscle statistics and timeline.
 */
module SessionsToday {
  import opened Wrappers
  import opened Numeric
  import opened Dates
  import opened Seqs
  import opened Sorting

  /** `formatDateForAPI`: the local civil date as `YYYY-MM-DD`. */
  function FormatDateForApi(d: Date): string {
    FormatYmd(d)
  }

  /** The date sent is an RFC 3339 full-date that reads back as the selected date. */
  lemma FormatDateForApiRoundTrip(d: Date)
    requires ValidDate(d)
    ensures IsFullDate(FormatDateForApi(d)) && ParseYmd(FormatDateForApi(d)) == Some(d)
  {
    FormatYmdRoundTrip(d);
  }

  datatype Endpoint = TodayEndpoint | ByDate(date: string)

  /** The sessions of today come from their own endpoint; any other day is asked for by date. */
  function EndpointFor(selected: Date, today: Date): (e: Endpoint)
    requires ValidDate(selected) && ValidDate(today)
    ensures e == TodayEndpoint <==> selected == today
    ensures e.ByDate? ==> ParseYmd(e.date) == Some(selected)
  {
    FormatDateForApiRoundTrip(selected);
    FormatDateForApiRoundTrip(today);
    var dateStr := FormatDateForApi(selected);
    if FormatDateForApi(today) == dateStr then TodayEndpoint else ByDate(dateStr)
  }

  /** `addedAt` of an exercise: a Firestore timestamp (`{ seconds }`) or a plain number. */
  datatype AddedAt = Timestamp(seconds: int) | Number(value: int)

  datatype SessionExercise = SessionExercise(
    completed: bool,
    muscleName: Option<string>,
    addedAt: Option<AddedAt>,
    gcsFolders: Option<seq<string>>,
    currentReps: Option<int>,
    reps: Option<int>)

  datatype Session = Session(status: string, batch: Option<string>, exercises: Option<seq<SessionExercise>>)

  function Exercises(s: Session): seq<SessionExercise> {
    s.exercises.GetOr([])
  }

  predicate IsCompleted(e: SessionExercise) {
    e.completed
  }

  function CompletedCount(s: Session): (n: nat)
    ensures n <= |Exercises(s)|
  {
    CountWhere(Exercises(s), IsCompleted)
  }

  /** `s.exercises?.length || 1`: a session without exercises counts as one planned exercise. */
  function PlannedCount(s: Session): (n: nat)
    ensures n >= 1 && CompletedCount(s) <= n
  {
    if |Exercises(s)| == 0 then 1 else |Exercises(s)|
  }

  /** The completed share of a session, used by the summary, the tabs and the flag. */
  function Pct(s: Session): (p: real)
    ensures 0.0 <= p <= 1.0
    ensures Exercises(s) == [] ==> p == 0.0
  {
    CompletedCount(s) as real / PlannedCount(s) as real
  }

  /** A session went as planned when at least 80% of its exercises were completed. */
  predicate AsPlanned(s: Session) {
    Pct(s) >= 0.8
  }

  predicate WithDeviation(s: Session) {
    !AsPlanned(s)
  }

  /** The as-planned threshold in whole numbers: five completed exercises for every four planned. */
  lemma AsPlannedInCounts(s: Session)
    ensures AsPlanned(s) <==> 5 * CompletedCount(s) >= 4 * PlannedCount(s)
  {
    var c := CompletedCount(s) as real;
    var t := PlannedCount(s) as real;
    var p := Pct(s);
    assert p * t == c;
    assert (p - 0.8) * t == c - 0.8 * t;
    ScaledSign(p - 0.8, t);
  }

  /** A session with no exercises is never as planned. */
  lemma EmptySessionDeviates(s: Session)
    requires Exercises(s) == []
    ensures WithDeviation(s)
  {
  }

  /** `asPlanned` and `withDeviations`: `withDeviations` counts exactly the other sessions. */
  function PlanSummary(sessions: seq<Session>): (r: (nat, nat))
    ensures r.0 + r.1 == |sessions|
    ensures r.1 == CountWhere(sessions, WithDeviation)
  {
    CountSplits(sessions, AsPlanned, WithDeviation);
    var asPlanned := CountWhere(sessions, AsPlanned);
    (asPlanned, |sessions| - asPlanned)
  }

  function BatchOf(s: Session): string {
    if s.batch.Some? && s.batch.value != "" then s.batch.value else "General"
  }

  /** The tab test: "completed" keeps closed or as-planned sessions, "flagged" those below 50%, any other tab all. */
  predicate MatchesTab(s: Session, tab: string) {
    if tab == "completed" then s.status == "Closed" || Pct(s) >= 0.8
    else if tab == "flagged" then Pct(s) < 0.5
    else true
  }

  predicate SessionShown(s: Session, tab: string, batch: string) {
    MatchesTab(s, tab) && (batch == "all" || BatchOf(s) == batch)
  }

  function FilteredSessions(sessions: seq<Session>, tab: string, batch: string): (r: seq<Session>)
    ensures forall k :: 0 <= k < |r| ==> MatchesTab(r[k], tab) && (batch == "all" || BatchOf(r[k]) == batch)
  {
    Filter(sessions, s => SessionShown(s, tab, batch))
  }

  /** A session is listed exactly when it passes the tab and the batch test. */
  lemma FilteredSessionsMembers(sessions: seq<Session>, tab: string, batch: string)
    ensures forall s :: s in FilteredSessions(sessions, tab, batch) <==>
                        s in sessions && MatchesTab(s, tab) && (batch == "all" || BatchOf(s) == batch)
  {
    FilterMembers(sessions, s => SessionShown(s, tab, batch));
  }

  /** The "all" tab with every batch lists every session, in order. */
  lemma AllTabListsEverything(sessions: seq<Session>)
    ensures FilteredSessions(sessions, "all", "all") == sessions
  {
    FilterKeepsAll(sessions, s => SessionShown(s, "all", "all"));
  }

  /** A flagged session appears under "completed" only when it is closed. */
  lemma FlaggedCompletedOnlyWhenClosed(s: Session)
    requires MatchesTab(s, "flagged") && MatchesTab(s, "completed")
    ensures s.status == "Closed"
  {
  }

  /** `uniqueBatches`: each session batch once (a missing batch is "General"), in order of first appearance. */
  function UniqueBatches(sessions: seq<Session>): (r: seq<string>)
    ensures forall b :: b in r <==> exists k :: 0 <= k < |sessions| && BatchOf(sessions[k]) == b
    ensures forall i, j :: 0 <= i < j < |r| ==> r[i] != r[j]
  {
    var batches := seq(|sessions|, k requires 0 <= k < |sessions| => BatchOf(sessions[k]));
    assert forall b :: b in batches <==> exists k :: 0 <= k < |sessions| && BatchOf(sessions[k]) == b by {
      forall b | exists k :: 0 <= k < |sessions| && BatchOf(sessions[k]) == b
        ensures b in batches
      {
        var k :| 0 <= k < |sessions| && BatchOf(sessions[k]) == b;
        assert batches[k] == b;
      }
    }
    Distinct(batches)
  }

  datatype Flag = LowCompletion | OverExecuted | CompletedFlag | NoFlag

  /**
   * `getFlagIcon`: low completion below 50%, then over-executed when more exercises were
   * completed than planned, then completed from 80%, else a dash. Completed exercises are
   * counted among the planned ones, so the over-executed flag is never shown.
   */
  function FlagFor(s: Session): (f: Flag)
    ensures f != OverExecuted
    ensures f == LowCompletion <==> Pct(s) < 0.5
    ensures f == CompletedFlag <==> Pct(s) >= 0.8
    ensures f == NoFlag <==> 0.5 <= Pct(s) < 0.8
  {
    var pct := Pct(s);
    if pct < 0.5 then LowCompletion
    else if CompletedCount(s) > PlannedCount(s) then OverExecuted
    else if pct >= 0.8 then CompletedFlag
    else NoFlag
  }

  /** The completion shown in the table and the detail view: a rounded percentage, 0 without exercises. */
  function CompletionPct(s: Session): (p: int)
    ensures 0 <= p <= 100
    ensures Exercises(s) == [] ==> p == 0
    ensures Exercises(s) != [] && CompletedCount(s) == |Exercises(s)| ==> p == 100
    ensures p as real - 0.5 <= Pct(s) * 100.0 < p as real + 0.5
  {
    var total := |Exercises(s)|;
    if total > 0 then RoundedPercent(CompletedCount(s), total) else 0
  }

  function MuscleOf(e: SessionExercise): string {
    if e.muscleName.Some? && e.muscleName.value != "" then e.muscleName.value else "Other"
  }

  /** The exercises of one muscle, in session order. */
  function OfMuscle(exercises: seq<SessionExercise>, muscle: string): seq<SessionExercise> {
    Filter(exercises, e => MuscleOf(e) == muscle)
  }

  datatype MuscleGroup = MuscleGroup(muscle: string, exercises: seq<SessionExercise>)

  function Muscles(groups: seq<MuscleGroup>): (r: seq<string>)
    ensures |r| == |groups| && forall k :: 0 <= k < |r| ==> r[k] == groups[k].muscle
  {
    seq(|groups|, k requires 0 <= k < |groups| => groups[k].muscle)
  }

  /** One step of the `reduce`: the exercise joins its muscle's group, opened at the end when new. */
  function AddToGroup(groups: seq<MuscleGroup>, e: SessionExercise): (r: seq<MuscleGroup>)
  {
    if groups == [] then [MuscleGroup(MuscleOf(e), [e])]
    else if groups[0].muscle == MuscleOf(e) then [MuscleGroup(groups[0].muscle, groups[0].exercises + [e])] + groups[1..]
    else [groups[0]] + AddToGroup(groups[1..], e)
  }

  lemma {:induction false} AddToGroupShape(groups: seq<MuscleGroup>, e: SessionExercise)
    requires forall i, j :: 0 <= i < j < |groups| ==> groups[i].muscle != groups[j].muscle
    ensures var r := AddToGroup(groups, e);
            |r| == |groups| + (if MuscleOf(e) in Muscles(groups) then 0 else 1) &&
            (forall k :: 0 <= k < |groups| ==>
               r[k].muscle == groups[k].muscle &&
               r[k].exercises == groups[k].exercises + (if groups[k].muscle == MuscleOf(e) then [e] else [])) &&
            (MuscleOf(e) !in Muscles(groups) ==> r[|groups|] == MuscleGroup(MuscleOf(e), [e]))
  {
    if groups != [] {
      AddToGroupShape(groups[1..], e);
      assert Muscles(groups) == [groups[0].muscle] + Muscles(groups[1..]);
    }
  }

  /** `exercisesByMuscle`, the `reduce` over the exercises in order. */
  function GroupByMuscle(exercises: seq<SessionExercise>): seq<MuscleGroup> {
    if exercises == [] then []
    else AddToGroup(GroupByMuscle(exercises[..|exercises| - 1]), exercises[|exercises| - 1])
  }

  /** The muscle of each exercise, in session order. */
  function Names(exercises: seq<SessionExercise>): (r: seq<string>)
    ensures |r| == |exercises| && forall k :: 0 <= k < |r| ==> r[k] == MuscleOf(exercises[k])
  {
    seq(|exercises|, k requires 0 <= k < |exercises| => MuscleOf(exercises[k]))
  }

  /** The groups are exactly the distinct muscles, each holding the exercises of its muscle. */
  predicate IsPartition(groups: seq<MuscleGroup>, exercises: seq<SessionExercise>) {
    Muscles(groups) == Distinct(Names(exercises)) &&
    forall k :: 0 <= k < |groups| ==> groups[k].exercises == OfMuscle(exercises, groups[k].muscle)
  }

  /**
   * The groups are the distinct muscles in order of first appearance, each holding exactly
   * the exercises of its muscle in session order: the groups partition the exercises.
   */
  lemma {:induction false} GroupByMuscleIsPartition(exercises: seq<SessionExercise>)
    ensures IsPartition(GroupByMuscle(exercises), exercises)
  {
    if exercises != [] {
      var init := exercises[..|exercises| - 1];
      GroupByMuscleIsPartition(init);
      assert exercises == init + [exercises[|exercises| - 1]];
      PartitionStep(init, exercises[|exercises| - 1]);
    }
  }

  /** Grouping one more exercise keeps the groups a partition. */
  lemma PartitionStep(init: seq<SessionExercise>, e: SessionExercise)
    requires IsPartition(GroupByMuscle(init), init)
    ensures IsPartition(GroupByMuscle(init + [e]), init + [e])
  {
    var exercises := init + [e];
    assert exercises[..|exercises| - 1] == init;
    var before := GroupByMuscle(init);
    assert forall i :: 0 <= i < |before| ==> Muscles(before)[i] == before[i].muscle;
    AddToGroupShape(before, e);
    MusclesStep(init, e);
    GroupsStep(init, e);
  }

  /** The new exercise's muscle is appended to the muscles when it is new. */
  lemma MusclesStep(init: seq<SessionExercise>, e: SessionExercise)
    requires Muscles(GroupByMuscle(init)) == Distinct(Names(init))
    requires forall i, j :: 0 <= i < j < |GroupByMuscle(init)| ==> GroupByMuscle(init)[i].muscle != GroupByMuscle(init)[j].muscle
    requires (init + [e])[..|init|] == init
    ensures Muscles(GroupByMuscle(init + [e])) == Distinct(Names(init + [e]))
  {
    assert Names(init + [e]) == Names(init) + [MuscleOf(e)];
    DistinctAppend(Names(init), MuscleOf(e));
    AddToGroupMuscles(GroupByMuscle(init), e);
  }

  /** Adding an exercise appends its muscle to the muscles when it is new. */
  lemma AddToGroupMuscles(groups: seq<MuscleGroup>, e: SessionExercise)
    requires forall i, j :: 0 <= i < j < |groups| ==> groups[i].muscle != groups[j].muscle
    ensures Muscles(AddToGroup(groups, e)) ==
              if MuscleOf(e) in Muscles(groups) then Muscles(groups) else Muscles(groups) + [MuscleOf(e)]
  {
    AddToGroupShape(groups, e);
  }

  /** Each group gains the new exercise exactly when it is of the group's muscle. */
  lemma GroupsStep(init: seq<SessionExercise>, e: SessionExercise)
    requires IsPartition(GroupByMuscle(init), init)
    requires forall i, j :: 0 <= i < j < |GroupByMuscle(init)| ==> GroupByMuscle(init)[i].muscle != GroupByMuscle(init)[j].muscle
    requires (init + [e])[..|init|] == init
    ensures forall k :: 0 <= k < |GroupByMuscle(init + [e])| ==>
              GroupByMuscle(init + [e])[k].exercises == OfMuscle(init + [e], GroupByMuscle(init + [e])[k].muscle)
  {
    var exercises := init + [e];
    var before := GroupByMuscle(init);
    var after := GroupByMuscle(exercises);
    AddToGroupShape(before, e);
    forall k | 0 <= k < |after|
      ensures after[k].exercises == OfMuscle(exercises, after[k].muscle)
    {
      var m := after[k].muscle;
      FilterAppend(init, e, x => MuscleOf(x) == m);
      if k == |before| {
        NoExercisesOfAbsentMuscle(init, m);
      }
    }
  }

  /** A muscle no exercise has gets no exercise. */
  lemma {:induction false} NoExercisesOfAbsentMuscle(exercises: seq<SessionExercise>, m: string)
    requires m !in Names(exercises)
    ensures OfMuscle(exercises, m) == []
  {
    if exercises != [] {
      assert Names(exercises) == [MuscleOf(exercises[0])] + Names(exercises[1..]);
      NoExercisesOfAbsentMuscle(exercises[1..], m);
    }
  }

  /** The group sizes add up to the number of exercises. */
  function GroupedCount(groups: seq<MuscleGroup>): nat {
    if groups == [] then 0 else |groups[0].exercises| + GroupedCount(groups[1..])
  }

  lemma {:induction false} AddToGroupCount(groups: seq<MuscleGroup>, e: SessionExercise)
    ensures GroupedCount(AddToGroup(groups, e)) == GroupedCount(groups) + 1
  {
    if groups != [] && groups[0].muscle != MuscleOf(e) {
      AddToGroupCount(groups[1..], e);
    }
  }

  /** Every exercise lands in exactly one group. */
  lemma {:induction false} GroupByMuscleCount(exercises: seq<SessionExercise>)
    ensures GroupedCount(GroupByMuscle(exercises)) == |exercises|
  {
    if exercises != [] {
      GroupByMuscleCount(exercises[..|exercises| - 1]);
      AddToGroupCount(GroupByMuscle(exercises[..|exercises| - 1]), exercises[|exercises| - 1]);
    }
  }

  function RepsSum(exercises: seq<SessionExercise>, current: bool): int {
    if exercises == [] then 0
    else
      var e := exercises[0];
      (if current then e.currentReps.GetOr(0) else e.reps.GetOr(0)) + RepsSum(exercises[1..], current)
  }

  datatype MuscleStat = MuscleStat(muscle: string, exercises: seq<SessionExercise>, completed: nat, total: nat,
                                   completionRate: real, totalReps: int, targetReps: int)

  /** The statistics of one group: completed and total exercises, the completion rate and the rep sums. */
  function StatOf(g: MuscleGroup): (s: MuscleStat)
    ensures s.muscle == g.muscle && s.total == |g.exercises| && s.completed <= s.total
    ensures 0.0 <= s.completionRate <= 100.0
  {
    var completed := CountWhere(g.exercises, IsCompleted);
    var total := |g.exercises|;
    var rate := if total > 0 then completed as real / total as real * 100.0 else 0.0;
    MuscleStat(g.muscle, g.exercises, completed, total, rate, RepsSum(g.exercises, true), RepsSum(g.exercises, false))
  }

  function StatKey(s: MuscleStat): real {
    -(s.total as real)
  }

  /** The statistics of the groups, in group order. */
  function GroupStats(groups: seq<MuscleGroup>): (r: seq<MuscleStat>)
    ensures |r| == |groups|
    ensures forall k :: 0 <= k < |r| ==> r[k] == StatOf(groups[k])
  {
    seq(|groups|, k requires 0 <= k < |groups| => StatOf(groups[k]))
  }

  /** `muscleStats`: the statistics of every group, largest group first. */
  function MuscleStats(exercises: seq<SessionExercise>): (r: seq<MuscleStat>)
    ensures multiset(r) == multiset(GroupStats(GroupByMuscle(exercises)))
    ensures forall i, j :: 0 <= i < j < |r| ==> r[i].total >= r[j].total
  {
    var stats := GroupStats(GroupByMuscle(exercises));
    SortBySorted(stats, StatKey);
    SortBy(stats, StatKey)
  }

  /** Every muscle statistic counts no more completed exercises than its group holds. */
  lemma MuscleStatsCompletedBounded(exercises: seq<SessionExercise>)
    ensures forall s :: s in MuscleStats(exercises) ==> s.completed <= s.total
  {
    var stats := GroupStats(GroupByMuscle(exercises));
    forall s | s in MuscleStats(exercises)
      ensures s.completed <= s.total
    {
      assert s in multiset(stats);
      var k :| 0 <= k < |stats| && stats[k] == s;
    }
  }

  /** The timeline key: `addedAt.seconds || addedAt || 0`. */
  function AddedKey(e: SessionExercise): real {
    match e.addedAt
    case None => 0.0
    case Some(Timestamp(seconds)) => seconds as real
    case Some(Number(value)) => value as real
  }

  /** `sortedExercises`: a copy of the exercises, earliest added first. */
  function Timeline(exercises: seq<SessionExercise>): (r: seq<SessionExercise>)
    ensures multiset(r) == multiset(exercises)
    ensures forall i, j :: 0 <= i < j < |r| ==> AddedKey(r[i]) <= AddedKey(r[j])
  {
    SortBySorted(exercises, AddedKey);
    SortBy(exercises, AddedKey)
  }

  predicate HasFolders(e: SessionExercise) {
    e.gcsFolders.Some? && |e.gcsFolders.value| > 0
  }

  /** `hasMotionData`: some exercise has recorded motion folders. */
  function HasMotionData(exercises: seq<SessionExercise>): (b: bool)
    ensures b <==> exists k :: 0 <= k < |exercises| && HasFolders(exercises[k])
  {
    if exercises == [] then false
    else
      assert forall k :: 1 <= k < |exercises| ==> exercises[1..][k - 1] == exercises[k];
      HasFolders(exercises[0]) || HasMotionData(exercises[1..])
  }
}
