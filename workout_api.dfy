/**
 * The workout-plan document and the edits the API makes to it inside its
 * transactions. A plan maps dates (`YYYY-MM-DD`) to days; a day is normally a list
 * of exercise instances, but older plans stored a day as an object whose values are
 * lists (grouped by muscle), and any day may be missing or falsy. Every edit first
 * normalises the day it touches into a flat list.
 *
 * Fresh instance ids and timestamps come from the platform's clock and random
 * generator; here they are parameters (`freshId`, `now`). The calendar conversion of
 * day numbers into civil dates is a parameter too.
 */
module WorkoutApi {
  import opened Wrappers
  import opened Text
  import opened Dates
  import opened Seqs

  /** One exercise instance of a day. */
  datatype Exercise = Exercise(
    id: string,
    name: string,
    muscleId: Option<int>,
    muscleName: Option<string>,
    reps: int,
    sets: int,
    weight: int,
    image: Option<string>,
    instanceId: Option<string>,
    addedAt: Option<string>,
    notes: Option<string>,
    updatedAt: Option<string>,
    copiedFrom: Option<string>)

  /** One field of a legacy day object: its key (a muscle id) and its value, `None` when not a list. */
  datatype LegacyField = LegacyField(key: string, value: Option<seq<Exercise>>)

  /**
   * A stored day: a flat list; a legacy object, given by its fields in `Object.entries`
   * order (a truthy scalar has no fields); or a falsy value.
   */
  datatype Day =
    | Items(exercises: seq<Exercise>)
    | Legacy(fields: seq<LegacyField>)
    | Falsy

  type Workouts = map<string, Day>

  /** The concatenation of the list values of a legacy day, in order, skipping the rest. */
  function FlattenLegacy(fields: seq<LegacyField>): seq<Exercise> {
    if fields == [] then []
    else FlattenLegacy(fields[..|fields| - 1]) +
         (match fields[|fields| - 1].value case Some(xs) => xs case None => [])
  }

  /** The exercises of a date after `normalizeDay`. */
  function DayExercises(workouts: Workouts, date: string): seq<Exercise> {
    if date !in workouts then []
    else match workouts[date]
      case Items(xs) => xs
      case Legacy(fields) => FlattenLegacy(fields)
      case Falsy => []
  }

  /** The outcome of a transaction: success, or the error it throws (which discards its writes). */
  datatype Outcome = Success | Failure(message: string)

  /** The fields of `updates` that are defined. */
  datatype Updates = Updates(reps: Option<int>, sets: Option<int>, weight: Option<int>, notes: Option<string>)

  /** The exercise as given to `addExercise`; `??` defaults apply to the missing fields. */
  datatype NewExercise = NewExercise(
    id: string, name: string, muscleId: Option<int>, muscle: Option<string>,
    reps: Option<int>, sets: Option<int>, weight: Option<int>, image: Option<string>)

  const DefaultReps := 15
  const DefaultSets := 3
  const DefaultWeight := 0

  /** The stored record of a new exercise: 15 reps, 3 sets and weight 0 unless given. */
  function NewRecord(ex: NewExercise, instanceId: string, now: string): (r: Exercise)
    ensures r.reps == ex.reps.GetOr(DefaultReps) && r.sets == ex.sets.GetOr(DefaultSets)
    ensures r.weight == ex.weight.GetOr(DefaultWeight)
    ensures r.instanceId == Some(instanceId) && r.id == ex.id && r.name == ex.name
    ensures r.notes == None && r.copiedFrom == None
  {
    Exercise(ex.id, ex.name, ex.muscleId, ex.muscle, ex.reps.GetOr(DefaultReps), ex.sets.GetOr(DefaultSets),
             ex.weight.GetOr(DefaultWeight), ex.image, Some(instanceId), Some(now), None, None, None)
  }

  /** An exercise with the defined updates applied and `updatedAt` stamped; nothing else changes. */
  function ApplyUpdates(e: Exercise, u: Updates, now: string): (r: Exercise)
    ensures r.reps == u.reps.GetOr(e.reps) && r.sets == u.sets.GetOr(e.sets)
    ensures r.weight == u.weight.GetOr(e.weight)
    ensures r.notes == (if u.notes.Some? then u.notes else e.notes)
    ensures r.updatedAt == Some(now)
    ensures r.(reps := e.reps, sets := e.sets, weight := e.weight, notes := e.notes, updatedAt := e.updatedAt) == e
  {
    e.(reps := u.reps.GetOr(e.reps), sets := u.sets.GetOr(e.sets), weight := u.weight.GetOr(e.weight),
       notes := if u.notes.Some? then u.notes else e.notes, updatedAt := Some(now))
  }

  /** `findIndex` on the instance id: the first match, or `|xs|` when there is none. */
  function FindIndex(xs: seq<Exercise>, instanceId: string): (i: nat)
    ensures i <= |xs|
    ensures i < |xs| ==> xs[i].instanceId == Some(instanceId)
    ensures forall k :: 0 <= k < i ==> xs[k].instanceId != Some(instanceId)
  {
    if xs == [] then 0
    else if xs[0].instanceId == Some(instanceId) then 0
    else 1 + FindIndex(xs[1..], instanceId)
  }

  /** `filter(ex => ex.instanceId !== instanceId)`. */
  function WithoutInstance(xs: seq<Exercise>, instanceId: string): (r: seq<Exercise>)
    ensures |r| <= |xs|
  {
    if xs == [] then []
    else (if xs[0].instanceId != Some(instanceId) then [xs[0]] else []) + WithoutInstance(xs[1..], instanceId)
  }

  /** The kept exercises are exactly those of the day that carry another id. */
  lemma {:induction false} WithoutInstanceMembers(xs: seq<Exercise>, instanceId: string)
    ensures forall e :: e in WithoutInstance(xs, instanceId) <==> e in xs && e.instanceId != Some(instanceId)
  {
    if xs != [] {
      WithoutInstanceMembers(xs[1..], instanceId);
      assert xs == [xs[0]] + xs[1..];
    }
  }

  /** Removing an id no exercise carries changes nothing. */
  lemma {:induction false} WithoutAbsentInstance(xs: seq<Exercise>, instanceId: string)
    requires forall k :: 0 <= k < |xs| ==> xs[k].instanceId != Some(instanceId)
    ensures WithoutInstance(xs, instanceId) == xs
  {
    if xs != [] {
      WithoutAbsentInstance(xs[1..], instanceId);
    }
  }

  /** Removing an id carried exactly once removes exactly one exercise. */
  lemma {:induction false} WithoutUniqueInstance(xs: seq<Exercise>, instanceId: string, i: nat)
    requires i < |xs| && xs[i].instanceId == Some(instanceId)
    requires forall k :: 0 <= k < |xs| && k != i ==> xs[k].instanceId != Some(instanceId)
    ensures WithoutInstance(xs, instanceId) == xs[..i] + xs[i + 1..]
  {
    var t := xs[1..];
    assert WithoutInstance(xs, instanceId) ==
           (if xs[0].instanceId != Some(instanceId) then [xs[0]] else []) + WithoutInstance(t, instanceId);
    if i == 0 {
      assert forall k :: 0 <= k < |t| ==> t[k] == xs[k + 1];
      WithoutAbsentInstance(t, instanceId);
    } else {
      assert forall k :: 0 <= k < |t| && k != i - 1 ==> t[k] == xs[k + 1];
      WithoutUniqueInstance(t, instanceId, i - 1);
      assert xs[..i] == [xs[0]] + t[..i - 1];
      assert xs[i + 1..] == t[i..];
    }
  }

  /** `instanceIds.map(id => day.find(...)).filter(Boolean)`: each listed id's first exercise, unknown ids dropped. */
  function Reordered(xs: seq<Exercise>, ids: seq<string>): (r: seq<Exercise>)
    ensures |r| <= |ids|
    ensures forall e :: e in r ==> e in xs
  {
    if ids == [] then []
    else
      var i := FindIndex(xs, ids[0]);
      (if i < |xs| then [xs[i]] else []) + Reordered(xs, ids[1..])
  }

  /** The listed ids that some exercise of the day carries, in the order given. */
  function KnownIds(xs: seq<Exercise>, ids: seq<string>): seq<string> {
    Filter(ids, id => FindIndex(xs, id) < |xs|)
  }

  /**
   * Reordering gives, in the order listed, the first exercise carrying each id the day
   * has: unknown ids are dropped and an exercise whose id is not listed is removed.
   */
  lemma {:induction false} ReorderedIsFirstMatches(xs: seq<Exercise>, ids: seq<string>)
    ensures |Reordered(xs, ids)| == |KnownIds(xs, ids)|
    ensures forall k :: 0 <= k < |KnownIds(xs, ids)| ==>
              Reordered(xs, ids)[k] == xs[FindIndex(xs, KnownIds(xs, ids)[k])]
  {
    if ids != [] {
      ReorderedIsFirstMatches(xs, ids[1..]);
    }
  }

  /** The instance ids of a day, in order (every exercise carrying one). */
  function InstanceIds(xs: seq<Exercise>): (ids: seq<string>)
    requires forall k :: 0 <= k < |xs| ==> xs[k].instanceId.Some?
    ensures |ids| == |xs|
    ensures forall k :: 0 <= k < |xs| ==> Some(ids[k]) == xs[k].instanceId
  {
    seq(|xs|, k requires 0 <= k < |xs| => xs[k].instanceId.value)
  }

  predicate DistinctInstanceIds(xs: seq<Exercise>) {
    forall j, k :: 0 <= j < k < |xs| ==> xs[j].instanceId != xs[k].instanceId
  }

  /** Reordering by the day's own ids, in their current order, gives back the same day. */
  lemma ReorderedByOwnIds(xs: seq<Exercise>)
    requires forall k :: 0 <= k < |xs| ==> xs[k].instanceId.Some?
    requires DistinctInstanceIds(xs)
    ensures Reordered(xs, InstanceIds(xs)) == xs
  {
    ReorderedSuffix(xs, InstanceIds(xs), 0);
  }

  lemma {:induction false} ReorderedSuffix(xs: seq<Exercise>, ids: seq<string>, start: nat)
    requires forall k :: 0 <= k < |xs| ==> xs[k].instanceId.Some?
    requires DistinctInstanceIds(xs)
    requires ids == InstanceIds(xs) && start <= |xs|
    ensures Reordered(xs, ids[start..]) == xs[start..]
    decreases |xs| - start
  {
    if start < |xs| {
      var rest := ids[start..];
      assert Reordered(xs, rest) == [xs[start]] + Reordered(xs, ids[start + 1..]) by {
        assert rest[0] == ids[start] && rest[1..] == ids[start + 1..];
        assert xs[start].instanceId == Some(ids[start]);
        FindIndexOfDistinct(xs, start, ids[start]);
      }
      ReorderedSuffix(xs, ids, start + 1);
      assert xs[start..] == [xs[start]] + xs[start + 1..];
    }
  }

  /** In a day with distinct ids, an exercise's id is found at its own position. */
  lemma FindIndexOfDistinct(xs: seq<Exercise>, j: nat, id: string)
    requires DistinctInstanceIds(xs)
    requires j < |xs| && xs[j].instanceId == Some(id)
    ensures FindIndex(xs, id) == j
  {
  }

  /** An id that is not in the day contributes nothing to the reordered list. */
  lemma UnknownIdsDropped(xs: seq<Exercise>, ids: seq<string>)
    requires forall k, m :: 0 <= k < |ids| && 0 <= m < |xs| ==> xs[m].instanceId != Some(ids[k])
    ensures Reordered(xs, ids) == []
  {
  }

  /** The copies of a day: same exercises, fresh ids, new `addedAt`, and the source date recorded. */
  function Copies(xs: seq<Exercise>, from: string, freshId: nat -> string, now: string): (r: seq<Exercise>)
    ensures |r| == |xs|
    ensures forall k :: 0 <= k < |xs| ==>
              r[k] == xs[k].(instanceId := Some(freshId(k)), addedAt := Some(now), copiedFrom := Some(from))
  {
    seq(|xs|, k requires 0 <= k < |xs| => xs[k].(instanceId := Some(freshId(k)), addedAt := Some(now), copiedFrom := Some(from)))
  }

  /** The workout-plan document as the transactions see it. */
  class PlanDocument {
    /** Whether the plan document exists. */
    var planExists: bool
    /** `data.workouts || {}`. */
    var workouts: Workouts

    constructor (planExists: bool, workouts: Workouts)
      ensures this.planExists == planExists && this.workouts == workouts
    {
      this.planExists, this.workouts := planExists, workouts;
    }

    /**
     * `normalizeDay`: a missing or falsy day becomes an empty list, a list is kept, and
     * a legacy object becomes the concatenation of its list values. Other dates are untouched.
     */
    method NormalizeDay(date: string)
      modifies this
      ensures workouts == old(workouts)[date := Items(DayExercises(old(workouts), date))]
      ensures planExists == old(planExists)
    {
      if date !in workouts || workouts[date].Falsy? {
        workouts := workouts[date := Items([])];
        return;
      }
      if workouts[date].Items? {
        return;
      }
      var fields := workouts[date].fields;
      var flattened: seq<Exercise> := [];
      var k := 0;
      while k < |fields|
        invariant 0 <= k <= |fields|
        invariant flattened == FlattenLegacy(fields[..k])
      {
        assert fields[..k + 1][..k] == fields[..k];
        match fields[k].value {
          case Some(arr) =>
            var j := 0;
            ghost var before := flattened;
            while j < |arr|
              invariant 0 <= j <= |arr|
              invariant flattened == before + arr[..j]
            {
              flattened := flattened + [arr[j]];
              j := j + 1;
            }
            assert arr[..j] == arr;
          case None =>
        }
        k := k + 1;
      }
      assert fields[..k] == fields;
      workouts := workouts[date := Items(flattened)];
    }

    /**
     * `addExercise`: creates the plan when missing, then appends one record with the
     * defaults and the fresh id at the end of the day, and returns that id.
     */
    method AddExercise(date: string, ex: NewExercise, freshId: string, now: string) returns (instanceId: string)
      modifies this
      ensures planExists
      ensures var before := if old(planExists) then old(workouts) else map[];
              workouts == before[date := Items(DayExercises(before, date) + [NewRecord(ex, freshId, now)])]
      ensures instanceId == freshId
    {
      if !planExists {
        planExists, workouts := true, map[];
      }
      NormalizeDay(date);
      workouts := workouts[date := Items(workouts[date].exercises + [NewRecord(ex, freshId, now)])];
      instanceId := freshId;
    }

    /**
     * `updateExercise`: fails when the plan or the instance is missing (and then writes
     * nothing); otherwise changes the defined fields and `updatedAt` of the first
     * exercise with that id, on that day only.
     */
    method UpdateExercise(date: string, instanceId: string, updates: Updates, now: string) returns (outcome: Outcome)
      modifies this
      ensures planExists == old(planExists)
      ensures !old(planExists) ==> outcome == Failure("Workout plan not found") && workouts == old(workouts)
      ensures old(planExists) && FindIndex(DayExercises(old(workouts), date), instanceId) == |DayExercises(old(workouts), date)| ==>
                outcome == Failure("Exercise not found") && workouts == old(workouts)
      ensures old(planExists) && FindIndex(DayExercises(old(workouts), date), instanceId) < |DayExercises(old(workouts), date)| ==>
                var xs := DayExercises(old(workouts), date);
                var i := FindIndex(xs, instanceId);
                outcome == Success && workouts == old(workouts)[date := Items(xs[i := ApplyUpdates(xs[i], updates, now)])]
    {
      if !planExists {
        return Failure("Workout plan not found");
      }
      var saved := workouts;
      NormalizeDay(date);
      var xs := workouts[date].exercises;
      var i := FindIndex(xs, instanceId);
      if i == |xs| {
        workouts := saved;
        return Failure("Exercise not found");
      }
      workouts := workouts[date := Items(xs[i := ApplyUpdates(xs[i], updates, now)])];
      outcome := Success;
    }

    /** `removeExercise`: nothing without a plan; otherwise the day keeps, in order, the exercises with another id. */
    method RemoveExercise(date: string, instanceId: string)
      modifies this
      ensures planExists == old(planExists)
      ensures !old(planExists) ==> workouts == old(workouts)
      ensures old(planExists) ==>
                workouts == old(workouts)[date := Items(WithoutInstance(DayExercises(old(workouts), date), instanceId))]
    {
      if !planExists {
        return;
      }
      NormalizeDay(date);
      workouts := workouts[date := Items(WithoutInstance(workouts[date].exercises, instanceId))];
    }

    /** `reorderExercises`: nothing without a plan; otherwise the day becomes the listed ids' exercises. */
    method ReorderExercises(date: string, instanceIds: seq<string>)
      modifies this
      ensures planExists == old(planExists)
      ensures !old(planExists) ==> workouts == old(workouts)
      ensures old(planExists) ==>
                workouts == old(workouts)[date := Items(Reordered(DayExercises(old(workouts), date), instanceIds))]
    {
      if !planExists {
        return;
      }
      NormalizeDay(date);
      workouts := workouts[date := Items(Reordered(workouts[date].exercises, instanceIds))];
    }

    /**
     * `copyWorkout`: fails without a plan or when the source day is empty (writing
     * nothing); otherwise the target day is replaced by copies of the source day, and
     * the source day is left normalised.
     */
    method CopyWorkout(from: string, to: string, freshId: nat -> string, now: string) returns (outcome: Outcome)
      modifies this
      ensures planExists == old(planExists)
      ensures !old(planExists) ==> outcome == Failure("No workout plan found") && workouts == old(workouts)
      ensures old(planExists) && DayExercises(old(workouts), from) == [] ==>
                outcome == Failure("No workout to copy") && workouts == old(workouts)
      ensures old(planExists) && DayExercises(old(workouts), from) != [] ==>
                var xs := DayExercises(old(workouts), from);
                outcome == Success &&
                workouts == old(workouts)[from := Items(xs)][to := Items(Copies(xs, from, freshId, now))]
    {
      if !planExists {
        return Failure("No workout plan found");
      }
      var saved := workouts;
      NormalizeDay(from);
      var xs := workouts[from].exercises;
      if |xs| == 0 {
        workouts := saved;
        return Failure("No workout to copy");
      }
      workouts := workouts[to := Items(Copies(xs, from, freshId, now))];
      outcome := Success;
    }

    /** `clearWorkoutByDate`: nothing without a plan; otherwise only that date's entry is deleted. */
    method ClearWorkoutByDate(date: string)
      modifies this
      ensures planExists == old(planExists)
      ensures !old(planExists) ==> workouts == old(workouts)
      ensures old(planExists) ==> workouts == old(workouts) - {date}
    {
      if planExists {
        workouts := workouts - {date};
      }
    }
  }

  /** Every edit leaves the other dates as they were. */
  lemma EditsTouchOnlyTheirDate(w: Workouts, date: string, other: string, day: Day)
    requires other != date
    ensures other in w[date := day] <==> other in w
    ensures other in w ==> w[date := day][other] == w[other]
    ensures other in w - {date} <==> other in w
  {
  }

  /** Removing the id of an exercise appended to a day where that id is new gives back the day. */
  lemma AppendThenRemove(xs: seq<Exercise>, t: Exercise, instanceId: string)
    requires t.instanceId == Some(instanceId)
    requires forall k :: 0 <= k < |xs| ==> xs[k].instanceId != Some(instanceId)
    ensures WithoutInstance(xs + [t], instanceId) == xs
  {
    var ys := xs + [t];
    assert forall k :: 0 <= k < |ys| && k != |xs| ==> ys[k] == xs[k];
    WithoutUniqueInstance(ys, instanceId, |xs|);
    assert ys[..|xs|] == xs;
  }

  /** Adding then removing a fresh id gives back the normalised day. */
  lemma AddThenRemove(w: Workouts, date: string, ex: NewExercise, freshId: string, now: string)
    requires forall k :: 0 <= k < |DayExercises(w, date)| ==> DayExercises(w, date)[k].instanceId != Some(freshId)
    ensures WithoutInstance(DayExercises(w, date) + [NewRecord(ex, freshId, now)], freshId) == DayExercises(w, date)
  {
    AppendThenRemove(DayExercises(w, date), NewRecord(ex, freshId, now), freshId);
  }

  /** An already flat day is left exactly as it is by normalisation. */
  lemma NormalizeKeepsLists(w: Workouts, date: string)
    requires date in w && w[date].Items?
    ensures w[date := Items(DayExercises(w, date))] == w
  {
  }

  /** `formatDate`: the local civil date as `YYYY-MM-DD`. */
  function FormatDate(d: Date): string {
    FormatYmd(d)
  }

  /** A four-digit-year date formats as an RFC 3339 full-date that reads back as the same date. */
  lemma FormatDateRoundTrip(d: Date)
    requires ValidDate(d)
    ensures IsFullDate(FormatDate(d)) && ParseYmd(FormatDate(d)) == Some(d)
  {
    FormatYmdRoundTrip(d);
  }

  /** The offset from a weekday to the Monday of its week; Sunday goes back six days. */
  function DiffToMonday(weekday: int): int {
    if weekday == 0 then -6 else 1 - weekday
  }

  /** The day number of the Monday of a day's week. */
  function MondayOf(day: int): int {
    day + DiffToMonday(Weekday(day))
  }

  /** The Monday of the week of a day lies at most six days before it and is a Monday. */
  lemma MondayOfWeek(day: int)
    ensures var monday := day + DiffToMonday(Weekday(day));
            Weekday(monday) == 1 && monday <= day < monday + 7
  {
  }

  /**
   * One entry of `getWeekDates`: the civil date (the entry's `date` string is
   * `FormatDate` of it), its weekday, and whether it is today.
   */
  datatype WeekDate = WeekDate(date: Date, weekday: int, isToday: bool)

  /**
   * The entry of a day. The source compares the two formatted strings; for dates with
   * four-digit years that is comparing the dates themselves (`SameFormattedDate`).
   */
  function WeekDateOf(day: int, today: int, civil: int -> Date): WeekDate {
    WeekDate(civil(day), Weekday(day), civil(day) == civil(today))
  }

  /** Two valid dates format to the same string exactly when they are the same date. */
  lemma SameFormattedDate(a: Date, b: Date)
    requires ValidDate(a) && ValidDate(b)
    ensures FormatDate(a) == FormatDate(b) <==> a == b
  {
    FormatDateRoundTrip(a);
    FormatDateRoundTrip(b);
  }

  /** The values of `f` on the `n` consecutive days from `first` on. */
  function DaysFrom<T>(first: int, n: nat, f: int -> T): (r: seq<T>)
    ensures |r| == n
  {
    if n == 0 then [] else DaysFrom(first, n - 1, f) + [f(first + n - 1)]
  }

  /** Entry `i` of the run is the value of day `first + i`. */
  lemma {:induction false} DaysFromIndex<T>(first: int, n: nat, f: int -> T, i: nat)
    requires i < n
    ensures DaysFrom(first, n, f)[i] == f(first + i)
  {
    if i < n - 1 {
      DaysFromIndex(first, n - 1, f, i);
    }
  }

  /**
   * `getWeekDates`: the seven days from the Monday of the reference day's week, each
   * with its civil date, its weekday and whether it is today. `civil` turns a day
   * number into the local civil date.
   */
  method GetWeekDates(referenceDay: int, today: int, civil: int -> Date) returns (dates: seq<WeekDate>)
    ensures |dates| == 7
    ensures forall i :: 0 <= i < 7 ==> dates[i] == WeekDateOf(MondayOf(referenceDay) + i, today, civil)
  {
    var entry := day => WeekDateOf(day, today, civil);
    var monday := MondayOf(referenceDay);
    dates := [];
    var i := 0;
    while i < 7
      invariant 0 <= i <= 7 && dates == DaysFrom(monday, i, entry)
    {
      dates := dates + [entry(monday + i)];
      i := i + 1;
    }
    forall k | 0 <= k < 7
      ensures dates[k] == WeekDateOf(monday + k, today, civil)
    {
      DaysFromIndex(monday, 7, entry, k);
    }
  }

  /** The week runs Monday to Sunday: entry `i` falls on weekday `(i + 1) % 7`, and the reference day is one of them. */
  lemma WeekRunsMondayToSunday(referenceDay: int, i: nat)
    requires i < 7
    ensures Weekday(MondayOf(referenceDay) + i) == (i + 1) % 7
    ensures -6 <= DiffToMonday(Weekday(referenceDay)) <= 0
  {
    var monday := referenceDay + DiffToMonday(Weekday(referenceDay));
    MondayOfWeek(referenceDay);
    var q := (monday + 4) / 7;
    assert monday + 4 == 7 * q + 1;
    if i < 6 {
      assert monday + i + 4 == 7 * q + (i + 1);
    } else {
      assert monday + i + 4 == 7 * (q + 1);
    }
  }
}
