/**
 * The workout schedule planner's local state: the trainer's gym id, the exercises
 * shown for a date (flattening legacy days), the library and athlete filters, and the
 * optimistic updates of the local plan around the backend calls (a dropped exercise
 * is shown at once under a temporary id, which the saved id replaces or which is
 * taken out again when the save fails). The backend's answers are inputs.
 */
module Planner {
  import opened Wrappers
  import opened Text
  import opened Seqs
  import opened Dates
  import opened WorkoutApi

  /** A gym reference: a bare string, or an object that may carry `gymId` and `id`. */
  datatype Gym = GymText(text: string) | GymObject(gymId: Option<string>, id: Option<string>)

  datatype Trainer = Trainer(organizationId: Option<string>, gymId: Option<string>,
                             gyms: Option<seq<Gym>>, gym: Option<Gym>)

  /** What `getGymId` returns: an id string, or a gym value itself when it has no id. */
  datatype GymRef = GymIdText(text: string) | WholeGym(gym: Gym)

  /** JavaScript truthiness of an optional string. */
  predicate Truthy(s: Option<string>) {
    s.Some? && s.value != ""
  }

  predicate GymTruthy(g: Gym) {
    g.GymObject? || g.text != ""
  }

  predicate RefTruthy(r: Option<GymRef>) {
    r.Some? && (r.value.GymIdText? || GymTruthy(r.value.gym))
  }

  /** `gym.gymId || gym.id || gym`. */
  function GymRefOf(g: Gym): (r: GymRef)
    ensures g.GymObject? && Truthy(g.gymId) ==> r == GymIdText(g.gymId.value)
    ensures g.GymObject? && !Truthy(g.gymId) && Truthy(g.id) ==> r == GymIdText(g.id.value)
    ensures !(g.GymObject? && (Truthy(g.gymId) || Truthy(g.id))) ==> r == WholeGym(g)
  {
    if g.GymObject? && Truthy(g.gymId) then GymIdText(g.gymId.value)
    else if g.GymObject? && Truthy(g.id) then GymIdText(g.id.value)
    else WholeGym(g)
  }

  /**
   * `getGymId`: the trainer's own `gymId`; else the first entry of a non-empty `gyms`
   * list; else a truthy `gym`; else nothing.
   */
  function GetGymId(trainer: Option<Trainer>): (r: Option<GymRef>)
    ensures trainer.None? ==> r.None?
    ensures trainer.Some? && Truthy(trainer.value.gymId) ==> r == Some(GymIdText(trainer.value.gymId.value))
    ensures trainer.Some? && !Truthy(trainer.value.gymId) && trainer.value.gyms.Some? && |trainer.value.gyms.value| > 0 ==>
              r == Some(GymRefOf(trainer.value.gyms.value[0]))
    ensures trainer.Some? && !Truthy(trainer.value.gymId) && (trainer.value.gyms.None? || |trainer.value.gyms.value| == 0) ==>
              r == (if trainer.value.gym.Some? && GymTruthy(trainer.value.gym.value) then Some(GymRefOf(trainer.value.gym.value)) else None)
    ensures r.Some? && r.value.GymIdText? ==> r.value.text != ""
  {
    if trainer.None? then None
    else
      var t := trainer.value;
      if Truthy(t.gymId) then Some(GymIdText(t.gymId.value))
      else if t.gyms.Some? && |t.gyms.value| > 0 then Some(GymRefOf(t.gyms.value[0]))
      else if t.gym.Some? && GymTruthy(t.gym.value) then Some(GymRefOf(t.gym.value))
      else None
  }

  /** The gym id is missing exactly when no source of it is usable. */
  lemma GymIdMissing(t: Trainer)
    requires !Truthy(t.gymId) && (t.gyms.None? || |t.gyms.value| == 0)
    ensures !RefTruthy(GetGymId(Some(t))) <==> t.gym.None? || !GymTruthy(t.gym.value)
  {
  }

  /** An empty string first in `gyms` is returned as it is: the save finds no gym, though `gym` has one. */
  lemma EmptyFirstGymHidesGym(t: Trainer)
    requires !Truthy(t.gymId) && t.gyms.Some? && |t.gyms.value| > 0 && t.gyms.value[0] == GymText("")
    ensures GetGymId(Some(t)) == Some(WholeGym(GymText("")))
    ensures !RefTruthy(GetGymId(Some(t)))
  {
  }

  /** An exercise of a legacy day as the planner shows it: the key as its muscle id, and an id made up when it has none. */
  function LegacyEntry(ex: Exercise, key: string): (r: Exercise)
    ensures r.muscleId == ParseInt(key)
    ensures Truthy(r.instanceId)
    ensures Truthy(ex.instanceId) ==> r.instanceId == ex.instanceId
    ensures r.(muscleId := ex.muscleId, instanceId := ex.instanceId) == ex
  {
    ex.(muscleId := ParseInt(key),
        instanceId := if Truthy(ex.instanceId) then ex.instanceId else Some("legacy_" + ex.id + "_" + key))
  }

  function LegacyEntries(xs: seq<Exercise>, key: string): (r: seq<Exercise>)
    ensures |r| == |xs|
    ensures forall k :: 0 <= k < |xs| ==> r[k] == LegacyEntry(xs[k], key)
  {
    seq(|xs|, k requires 0 <= k < |xs| => LegacyEntry(xs[k], key))
  }

  /** The exercises of a legacy day, field by field in `Object.entries` order. */
  function LegacyExercises(fields: seq<LegacyField>): seq<Exercise> {
    if fields == [] then []
    else
      var last := fields[|fields| - 1];
      LegacyExercises(fields[..|fields| - 1]) +
      (match last.value case Some(xs) => LegacyEntries(xs, last.key) case None => [])
  }

  /** `getExercisesForDate`: nothing for a missing or falsy day, a list day as it is, a legacy day flattened. */
  function ExercisesForDate(plan: Workouts, date: string): seq<Exercise> {
    if date !in plan then []
    else match plan[date]
      case Items(xs) => xs
      case Legacy(fields) => LegacyExercises(fields)
      case Falsy => []
  }

  /**
   * The planner shows the same exercises, in the same order, as the API's `normalizeDay`
   * keeps, except for the muscle id and instance id it fills in for legacy days; and every
   * exercise of a legacy day gets an instance id.
   */
  lemma {:induction false} LegacyExercisesAgree(fields: seq<LegacyField>)
    ensures |LegacyExercises(fields)| == |FlattenLegacy(fields)|
    ensures forall k :: 0 <= k < |FlattenLegacy(fields)| ==>
              LegacyExercises(fields)[k].(muscleId := FlattenLegacy(fields)[k].muscleId,
                                          instanceId := FlattenLegacy(fields)[k].instanceId) == FlattenLegacy(fields)[k]
    ensures forall k :: 0 <= k < |LegacyExercises(fields)| ==> Truthy(LegacyExercises(fields)[k].instanceId)
  {
    if fields != [] {
      var init := fields[..|fields| - 1];
      LegacyExercisesAgree(init);
      var last := fields[|fields| - 1];
      var a := LegacyExercises(init);
      var b := FlattenLegacy(init);
      var ta: seq<Exercise> := match last.value case Some(xs) => LegacyEntries(xs, last.key) case None => [];
      var tb: seq<Exercise> := match last.value case Some(xs) => xs case None => [];
      assert LegacyExercises(fields) == a + ta;
      assert FlattenLegacy(fields) == b + tb;
      assert |ta| == |tb|;
      forall k | 0 <= k < |ta|
        ensures ta[k].(muscleId := tb[k].muscleId, instanceId := tb[k].instanceId) == tb[k]
        ensures Truthy(ta[k].instanceId)
      {
        assert ta[k] == LegacyEntry(tb[k], last.key);
      }
    }
  }

  /** The planner shows the API's normalised day, up to the ids it fills in. */
  lemma ExercisesForDateAgree(plan: Workouts, date: string)
    ensures |ExercisesForDate(plan, date)| == |DayExercises(plan, date)|
    ensures forall k :: 0 <= k < |DayExercises(plan, date)| ==>
              ExercisesForDate(plan, date)[k].(muscleId := DayExercises(plan, date)[k].muscleId,
                                               instanceId := DayExercises(plan, date)[k].instanceId)
              == DayExercises(plan, date)[k]
  {
    if date in plan && plan[date].Legacy? {
      LegacyExercisesAgree(plan[date].fields);
    }
  }

  /** The exercise library filter: the name contains the search text (ignoring case), and the muscle matches. */
  predicate ExerciseMatches(e: Exercise, search: string, selectedMuscle: string) {
    IncludesIgnoringCase(e.name, search) &&
    (selectedMuscle == "all" || (ParseInt(selectedMuscle).Some? && e.muscleId == ParseInt(selectedMuscle)))
  }

  function FilteredExercises(library: seq<Exercise>, search: string, selectedMuscle: string): (r: seq<Exercise>)
    ensures forall k :: 0 <= k < |r| ==> ExerciseMatches(r[k], search, selectedMuscle)
  {
    Filter(library, e => ExerciseMatches(e, search, selectedMuscle))
  }

  /** An exercise is listed exactly when it is in the library and matches. */
  lemma FilteredExercisesMembers(library: seq<Exercise>, search: string, selectedMuscle: string)
    ensures forall e :: e in FilteredExercises(library, search, selectedMuscle) <==>
              e in library && ExerciseMatches(e, search, selectedMuscle)
  {
    FilterMembers(library, e => ExerciseMatches(e, search, selectedMuscle));
  }

  /** With no search text and every muscle selected, the whole library is listed. */
  lemma UnfilteredLibrary(library: seq<Exercise>)
    ensures FilteredExercises(library, "", "all") == library
  {
    forall k | 0 <= k < |library| ensures ExerciseMatches(library[k], "", "all") {
      IncludesEmpty(ToLower(library[k].name));
    }
    FilterKeepsAll(library, e => ExerciseMatches(e, "", "all"));
  }

  /** A muscle selection that is not a number lists nothing. */
  lemma UnparsableMuscleListsNothing(library: seq<Exercise>, search: string, selectedMuscle: string)
    requires selectedMuscle != "all" && ParseInt(selectedMuscle).None?
    ensures FilteredExercises(library, search, selectedMuscle) == []
  {
    CountZero(library, e => ExerciseMatches(e, search, selectedMuscle));
    CountIsFilterLength(library, e => ExerciseMatches(e, search, selectedMuscle));
  }

  datatype Athlete = Athlete(id: string, name: Option<string>, email: Option<string>)

  /** The athlete with its name filled in: its own, else the looked-up one, else none. */
  function Enriched(a: Athlete, names: map<string, string>): (r: Athlete)
    ensures Truthy(a.name) ==> r == a
    ensures !Truthy(a.name) && a.id in names && names[a.id] != "" ==> r == a.(name := Some(names[a.id]))
    ensures !Truthy(a.name) && !(a.id in names && names[a.id] != "") ==> r == a.(name := None)
  {
    a.(name := if Truthy(a.name) then a.name else if a.id in names && names[a.id] != "" then Some(names[a.id]) else None)
  }

  function TextOr(s: Option<string>): string {
    if Truthy(s) then s.value else ""
  }

  /** The athlete search: the name or the email contains the search text, ignoring case. */
  predicate AthleteMatches(a: Athlete, search: string) {
    IncludesIgnoringCase(TextOr(a.name), search) || IncludesIgnoringCase(TextOr(a.email), search)
  }

  function FilteredAthletes(athletes: seq<Athlete>, names: map<string, string>, search: string): (r: seq<Athlete>)
    ensures |r| <= |athletes|
    ensures forall k :: 0 <= k < |r| ==> AthleteMatches(r[k], search)
  {
    Filter(seq(|athletes|, k requires 0 <= k < |athletes| => Enriched(athletes[k], names)), a => AthleteMatches(a, search))
  }

  /** An athlete is listed, with its name filled in, exactly when it matches the search. */
  lemma FilteredAthletesMembers(athletes: seq<Athlete>, names: map<string, string>, search: string, a: Athlete)
    requires a in athletes
    ensures Enriched(a, names) in FilteredAthletes(athletes, names, search) <==> AthleteMatches(Enriched(a, names), search)
  {
    var enriched := seq(|athletes|, k requires 0 <= k < |athletes| => Enriched(athletes[k], names));
    var i :| 0 <= i < |athletes| && athletes[i] == a;
    assert enriched[i] == Enriched(a, names);
    FilterMembers(enriched, x => AthleteMatches(x, search));
  }

  /** The id shown for a dropped exercise until the save answers: `temp_` and the clock in milliseconds. */
  function TempId(nowMillis: nat): (id: string)
    ensures StartsWith(id, "temp_")
  {
    "temp_" + NatToString(nowMillis)
  }

  /** The dropped exercise as first shown: the temporary id, the time, 15 reps, 3 sets, weight 0. */
  function TempEntry(dragged: Exercise, tempId: string, now: string): (r: Exercise)
    ensures r.instanceId == Some(tempId) && r.addedAt == Some(now)
    ensures r.reps == 15 && r.sets == 3 && r.weight == 0
    ensures r.(instanceId := dragged.instanceId, addedAt := dragged.addedAt, reps := dragged.reps,
               sets := dragged.sets, weight := dragged.weight) == dragged
  {
    dragged.(instanceId := Some(tempId), addedAt := Some(now), reps := 15, sets := 3, weight := 0)
  }

  /** The exercises with the temporary id given the saved one; the others unchanged. */
  function ReplaceInstanceId(xs: seq<Exercise>, from: string, to: string): (r: seq<Exercise>)
    ensures |r| == |xs|
    ensures forall k :: 0 <= k < |xs| && xs[k].instanceId == Some(from) ==> r[k] == xs[k].(instanceId := Some(to))
    ensures forall k :: 0 <= k < |xs| && xs[k].instanceId != Some(from) ==> r[k] == xs[k]
  {
    seq(|xs|, k requires 0 <= k < |xs| => if xs[k].instanceId == Some(from) then xs[k].(instanceId := Some(to)) else xs[k])
  }

  /** The edit form: numbers for reps, sets and weight, text for the notes. */
  datatype EditForm = EditForm(reps: int, sets: int, weight: int, notes: string)

  const DefaultForm := EditForm(15, 3, 0, "")

  datatype EditField = RepsField | SetsField | WeightField | NotesField

  /** `{ ...ex, ...editFormData }`: the form's four fields replace the exercise's. */
  function Merged(ex: Exercise, form: EditForm): (r: Exercise)
    ensures r.reps == form.reps && r.sets == form.sets && r.weight == form.weight && r.notes == Some(form.notes)
    ensures r.(reps := ex.reps, sets := ex.sets, weight := ex.weight, notes := ex.notes) == ex
  {
    ex.(reps := form.reps, sets := form.sets, weight := form.weight, notes := Some(form.notes))
  }

  function MergeEdit(xs: seq<Exercise>, instanceId: Option<string>, form: EditForm): (r: seq<Exercise>)
    ensures |r| == |xs|
    ensures forall k :: 0 <= k < |xs| && xs[k].instanceId == instanceId ==> r[k] == Merged(xs[k], form)
    ensures forall k :: 0 <= k < |xs| && xs[k].instanceId != instanceId ==> r[k] == xs[k]
  {
    seq(|xs|, k requires 0 <= k < |xs| => if xs[k].instanceId == instanceId then Merged(xs[k], form) else xs[k])
  }

  /** What the backend call answered. */
  datatype Backend = Answered(instanceId: Option<string>) | Threw

  datatype SaveStatus = Idle | Saving | Saved | SaveFailed

  /** Whether a save or a removal reaches the backend: an athlete, an organization and a gym id. */
  predicate CanWrite(athleteSelected: bool, trainer: Option<Trainer>) {
    athleteSelected && trainer.Some? && Truthy(trainer.value.organizationId) && RefTruthy(GetGymId(trainer))
  }

  /** The local plan after `saveToFirebase` has run on a plan showing the temporary entry. */
  function AfterSave(plan: Workouts, date: string, tempId: string, canWrite: bool, backend: Backend): Workouts {
    if !canWrite || !(date in plan && plan[date].Items?) then plan
    else match backend
      case Answered(instanceId) =>
        if Truthy(instanceId) then plan[date := Items(ReplaceInstanceId(plan[date].exercises, tempId, instanceId.value))]
        else plan
      case Threw => plan[date := Items(WithoutInstance(plan[date].exercises, tempId))]
  }

  class PlannerState {
    var workoutPlan: Workouts
    var draggedExercise: Option<Exercise>
    var saveStatus: SaveStatus
    /** The reference day of the week shown, as a day number. */
    var currentWeekStart: int
    var editingExercise: Option<Exercise>
    var editingDate: Option<string>
    var editForm: EditForm

    constructor (today: int)
      ensures workoutPlan == map[] && draggedExercise == None && saveStatus == Idle
      ensures currentWeekStart == today && editingExercise == None && editingDate == None && editForm == DefaultForm
    {
      workoutPlan, draggedExercise, saveStatus := map[], None, Idle;
      currentWeekStart, editingExercise, editingDate, editForm := today, None, None, DefaultForm;
    }

    /** `navigateWeek`: the reference day moves by exactly seven days per step. */
    method NavigateWeek(direction: int)
      modifies this
      ensures currentWeekStart == old(currentWeekStart) + 7 * direction
      ensures workoutPlan == old(workoutPlan) && editForm == old(editForm)
      ensures draggedExercise == old(draggedExercise) && saveStatus == old(saveStatus)
      ensures editingExercise == old(editingExercise) && editingDate == old(editingDate)
    {
      currentWeekStart := currentWeekStart + direction * 7;
    }

    /** The optimistic part of `handleDrop`: the day, as shown, with the temporary entry at its end. */
    method ShowDropped(date: string, dragged: Exercise, tempId: string, now: string)
      modifies this
      ensures workoutPlan == old(workoutPlan)[date := Items(ExercisesForDate(old(workoutPlan), date) + [TempEntry(dragged, tempId, now)])]
      ensures draggedExercise == old(draggedExercise) && saveStatus == old(saveStatus)
      ensures currentWeekStart == old(currentWeekStart) && editingExercise == old(editingExercise)
      ensures editingDate == old(editingDate) && editForm == old(editForm)
    {
      var day: seq<Exercise>;
      if date !in workoutPlan || workoutPlan[date].Falsy? {
        day := [];
      } else if !workoutPlan[date].Items? {
        day := ExercisesForDate(workoutPlan, date);
      } else {
        day := workoutPlan[date].exercises;
      }
      workoutPlan := workoutPlan[date := Items(day + [TempEntry(dragged, tempId, now)])];
    }

    /**
     * `saveToFirebase`: nothing without an athlete, an organization or a gym id (the
     * temporary entry stays). Otherwise a saved id replaces the temporary one on a list
     * day, and a failed save takes the temporary entry out of a list day.
     */
    method SaveToFirebase(date: string, tempId: string, athleteSelected: bool, trainer: Option<Trainer>, backend: Backend)
      modifies this
      ensures workoutPlan == AfterSave(old(workoutPlan), date, tempId, CanWrite(athleteSelected, trainer), backend)
      ensures !CanWrite(athleteSelected, trainer) ==> saveStatus == old(saveStatus)
      ensures CanWrite(athleteSelected, trainer) ==> saveStatus == (if backend.Answered? then Saved else SaveFailed)
      ensures draggedExercise == old(draggedExercise) && currentWeekStart == old(currentWeekStart)
      ensures editingExercise == old(editingExercise) && editingDate == old(editingDate) && editForm == old(editForm)
    {
      if !athleteSelected || trainer.None? || !Truthy(trainer.value.organizationId) {
        return;
      }
      var gymId := GetGymId(trainer);
      if !RefTruthy(gymId) {
        return;
      }
      saveStatus := Saving;
      match backend {
        case Answered(instanceId) =>
          if Truthy(instanceId) && date in workoutPlan && workoutPlan[date].Items? {
            workoutPlan := workoutPlan[date := Items(ReplaceInstanceId(workoutPlan[date].exercises, tempId, instanceId.value))];
          }
          saveStatus := Saved;
        case Threw =>
          saveStatus := SaveFailed;
          if date in workoutPlan && workoutPlan[date].Items? {
            workoutPlan := workoutPlan[date := Items(WithoutInstance(workoutPlan[date].exercises, tempId))];
          }
      }
    }

    /**
     * `handleDrop`: nothing without an athlete or a dragged exercise; otherwise the
     * entry is shown at once, the save runs, and the drag ends.
     */
    method HandleDrop(date: string, athleteSelected: bool, trainer: Option<Trainer>, tempId: string, now: string,
                      backend: Backend)
      modifies this
      ensures !athleteSelected || old(draggedExercise).None? ==> unchanged(this)
      ensures athleteSelected && old(draggedExercise).Some? ==> draggedExercise == None
      ensures athleteSelected && old(draggedExercise).Some? ==>
                var shown := old(workoutPlan)[date := Items(ExercisesForDate(old(workoutPlan), date) +
                                                            [TempEntry(old(draggedExercise).value, tempId, now)])];
                workoutPlan == AfterSave(shown, date, tempId, CanWrite(athleteSelected, trainer), backend)
      ensures athleteSelected && old(draggedExercise).Some? ==>
                saveStatus == (if !CanWrite(athleteSelected, trainer) then old(saveStatus)
                               else if backend.Answered? then Saved else SaveFailed)
      ensures currentWeekStart == old(currentWeekStart) && editingExercise == old(editingExercise)
      ensures editingDate == old(editingDate) && editForm == old(editForm)
    {
      if !athleteSelected || draggedExercise.None? {
        return;
      }
      ShowDropped(date, draggedExercise.value, tempId, now);
      SaveToFirebase(date, tempId, athleteSelected, trainer, backend);
      draggedExercise := None;
    }

    /** `removeExercise`: the local day loses that id only once the backend has removed it. */
    method RemoveExercise(date: string, instanceId: string, athleteSelected: bool, trainer: Option<Trainer>, backendOk: bool)
      modifies this
      ensures !(CanWrite(athleteSelected, trainer) && backendOk) ==> workoutPlan == old(workoutPlan)
      ensures CanWrite(athleteSelected, trainer) && backendOk ==>
                workoutPlan == (if date in old(workoutPlan) && old(workoutPlan)[date].Items?
                                then old(workoutPlan)[date := Items(WithoutInstance(old(workoutPlan)[date].exercises, instanceId))]
                                else old(workoutPlan))
      ensures draggedExercise == old(draggedExercise) && saveStatus == old(saveStatus)
      ensures currentWeekStart == old(currentWeekStart) && editingExercise == old(editingExercise)
      ensures editingDate == old(editingDate) && editForm == old(editForm)
    {
      if !athleteSelected || trainer.None? || !Truthy(trainer.value.organizationId) {
        return;
      }
      var gymId := GetGymId(trainer);
      if !RefTruthy(gymId) {
        return;
      }
      if backendOk && date in workoutPlan && workoutPlan[date].Items? {
        workoutPlan := workoutPlan[date := Items(WithoutInstance(workoutPlan[date].exercises, instanceId))];
      }
    }

    /** `openEditModal`: the form starts from the exercise, with 15, 3, 0 and "" for its falsy fields. */
    method OpenEditModal(exercise: Exercise, date: string)
      modifies this
      ensures editingExercise == Some(exercise) && editingDate == Some(date)
      ensures editForm.reps == (if exercise.reps != 0 then exercise.reps else 15)
      ensures editForm.sets == (if exercise.sets != 0 then exercise.sets else 3)
      ensures editForm.weight == exercise.weight
      ensures editForm.notes == TextOr(exercise.notes)
      ensures workoutPlan == old(workoutPlan) && currentWeekStart == old(currentWeekStart)
      ensures draggedExercise == old(draggedExercise) && saveStatus == old(saveStatus)
    {
      editingExercise, editingDate := Some(exercise), Some(date);
      editForm := EditForm(if exercise.reps != 0 then exercise.reps else 15,
                           if exercise.sets != 0 then exercise.sets else 3,
                           if exercise.weight != 0 then exercise.weight else 0,
                           TextOr(exercise.notes));
    }

    method CloseEditModal()
      modifies this
      ensures editingExercise == None && editingDate == None && editForm == DefaultForm
      ensures workoutPlan == old(workoutPlan) && currentWeekStart == old(currentWeekStart)
      ensures draggedExercise == old(draggedExercise) && saveStatus == old(saveStatus)
    {
      editingExercise, editingDate, editForm := None, None, DefaultForm;
    }

    /** `handleEditFormChange`: notes keep the text; the other fields take `parseInt(value) || 0`. */
    method HandleEditFormChange(field: EditField, value: string)
      modifies this
      ensures field == NotesField ==> editForm == old(editForm).(notes := value)
      ensures field == RepsField ==> editForm == old(editForm).(reps := ParseInt(value).GetOr(0))
      ensures field == SetsField ==> editForm == old(editForm).(sets := ParseInt(value).GetOr(0))
      ensures field == WeightField ==> editForm == old(editForm).(weight := ParseInt(value).GetOr(0))
      ensures workoutPlan == old(workoutPlan) && editingExercise == old(editingExercise) && editingDate == old(editingDate)
      ensures draggedExercise == old(draggedExercise) && saveStatus == old(saveStatus)
      ensures currentWeekStart == old(currentWeekStart)
    {
      var number := ParseInt(value).GetOr(0);
      match field {
        case NotesField => editForm := editForm.(notes := value);
        case RepsField => editForm := editForm.(reps := number);
        case SetsField => editForm := editForm.(sets := number);
        case WeightField => editForm := editForm.(weight := number);
      }
    }

    /**
     * `saveExerciseEdit`: nothing without an exercise, a date, an athlete or a gym id;
     * after the backend's update the form is merged into the exercises of the edited date
     * with the edited instance id (and no other), and the editor closes. A failed update
     * changes nothing.
     */
    method SaveExerciseEdit(athleteSelected: bool, trainer: Option<Trainer>, backendOk: bool)
      modifies this
      ensures (!(old(editingExercise).Some? && old(editingDate).Some? && athleteSelected &&
                 RefTruthy(GetGymId(trainer)) && backendOk)) ==>
                unchanged(this)
      ensures old(editingExercise).Some? && old(editingDate).Some? && athleteSelected &&
              RefTruthy(GetGymId(trainer)) && backendOk ==>
                var d := old(editingDate).value;
                workoutPlan == (if d in old(workoutPlan) && old(workoutPlan)[d].Items?
                                then old(workoutPlan)[d := Items(MergeEdit(old(workoutPlan)[d].exercises,
                                                                           old(editingExercise).value.instanceId, old(editForm)))]
                                else old(workoutPlan)) &&
                editingExercise == None && editingDate == None && editForm == DefaultForm
      ensures draggedExercise == old(draggedExercise) && saveStatus == old(saveStatus)
      ensures currentWeekStart == old(currentWeekStart)
    {
      if editingExercise.None? || editingDate.None? || !athleteSelected {
        return;
      }
      var gymId := GetGymId(trainer);
      if !RefTruthy(gymId) || !backendOk {
        return;
      }
      var d := editingDate.value;
      if d in workoutPlan && workoutPlan[d].Items? {
        workoutPlan := workoutPlan[d := Items(MergeEdit(workoutPlan[d].exercises, editingExercise.value.instanceId, editForm))];
      }
      CloseEditModal();
    }
  }

  /** A drop whose save returns the server's id shows the exercise under that id at the end of the day. */
  method DropThenSaved(date: string, dragged: Exercise, trainer: Trainer, tempId: string, now: string, savedId: string,
                       plan: Workouts) returns (day: seq<Exercise>)
    requires CanWrite(true, Some(trainer)) && savedId != ""
    requires forall k :: 0 <= k < |ExercisesForDate(plan, date)| ==> ExercisesForDate(plan, date)[k].instanceId != Some(tempId)
    ensures day == ExercisesForDate(plan, date) + [TempEntry(dragged, tempId, now).(instanceId := Some(savedId))]
  {
    var p := new PlannerState(0);
    p.workoutPlan, p.draggedExercise := plan, Some(dragged);
    p.HandleDrop(date, true, Some(trainer), tempId, now, Answered(Some(savedId)));
    day := p.workoutPlan[date].exercises;
    var before := ExercisesForDate(plan, date);
    var shown := before + [TempEntry(dragged, tempId, now)];
    assert day == ReplaceInstanceId(shown, tempId, savedId);
    assert forall k :: 0 <= k < |before| ==> shown[k] == before[k];
  }

  /** A drop whose save fails leaves the day as it was shown before the drop. */
  method DropThenFailed(date: string, dragged: Exercise, trainer: Trainer, tempId: string, now: string, plan: Workouts)
    returns (day: seq<Exercise>)
    requires CanWrite(true, Some(trainer))
    requires forall k :: 0 <= k < |ExercisesForDate(plan, date)| ==> ExercisesForDate(plan, date)[k].instanceId != Some(tempId)
    ensures day == ExercisesForDate(plan, date)
  {
    var p := new PlannerState(0);
    p.workoutPlan, p.draggedExercise := plan, Some(dragged);
    p.HandleDrop(date, true, Some(trainer), tempId, now, Threw);
    day := p.workoutPlan[date].exercises;
    AppendThenRemove(ExercisesForDate(plan, date), TempEntry(dragged, tempId, now), tempId);
  }

  /** A drop whose save never starts (no gym id) keeps the temporary entry: there is no rollback. */
  method DropWithoutGym(date: string, dragged: Exercise, trainer: Trainer, tempId: string, now: string, plan: Workouts)
    returns (day: seq<Exercise>)
    requires Truthy(trainer.organizationId) && !RefTruthy(GetGymId(Some(trainer)))
    ensures day == ExercisesForDate(plan, date) + [TempEntry(dragged, tempId, now)]
  {
    var p := new PlannerState(0);
    p.workoutPlan, p.draggedExercise := plan, Some(dragged);
    p.HandleDrop(date, true, Some(trainer), tempId, now, Threw);
    day := p.workoutPlan[date].exercises;
  }

  /** The week shown after a step forward starts seven days after the one before. */
  lemma NavigateWeekShiftsMonday(day: int)
    ensures MondayOf(day + 7) == MondayOf(day) + 7
  {
    assert Weekday(day + 7) == Weekday(day) by {
      var q := (day + 4) / 7;
      var r := (day + 4) % 7;
      assert day + 4 == 7 * q + r;
      assert day + 7 + 4 == 7 * (q + 1) + r;
    }
  }
}
