# trainer_app2 core, modelled in Dafny

This project models the core of trainer_app2, a trainer's web dashboard, in three parts:

- **SMPL motion replay.** A recorded exercise is stored as a folder of per-frame mesh files.
  - The frame source decides which storage layout a folder uses and builds the frame URLs.
  - The preloader fetches the frames in batches and reports progress.
  - The player steps through the frames on a timer.
  - The mesh viewer caches the SMPL face indices.
  - The replay modal lets the trainer pick an exercise and a recording.
- **Workout-plan editing.** The plan document of a gym stores one exercise list per date (`YYYY-MM-DD`).
  - The API adds, updates, removes, reorders, copies and clears the exercises of a date.
  - The weekly planner shows one week from Monday, accepts dropped exercises, edits an exercise in a modal and saves with an optimistic update.
- **Scoring, classification and aggregation.**
  - Deterministic mock scores come from a 32-bit string hash.
  - The athletes list enriches each athlete with their month's session stats, risk and filters.
  - Today's sessions show their completion and per-muscle groups.
  - The attendance page and its cards show the leaderboard, top performers, completion bands, alerts, session overview, heatmap and streak.

Modelling choices:

- Pure code becomes functions plus lemmas.
- Components and hooks whose state changes become classes:
  - their fields are the React state;
  - each handler or effect is a method with a `modifies` clause.
- Loops in the source become methods with `while` loops, proved against a specification function.
- What the page gets from outside becomes a parameter or a datatype input:
  - fetch outcomes;
  - the current time;
  - fresh ids;
  - the conversion from a day number to a civil date.
- Days are integers, with day 0 = 1970-01-01, a Thursday.
- Missing JavaScript values are `Option`s, and `x || 0` reads a missing or empty value as the default.
- `Math.round` is `Round(x) = floor(x + 1/2)`. A number shown with `toFixed(1)` is kept as an integer count of tenths.

## Model

| member | source | states |
|---|---|---|
| DataUtils.ToInt32 | src/app/lib/dataUtils.js:6 | `hash \|= 0` yields the signed 32-bit integer congruent to its input modulo 2^32 |
| DataUtils.ToInt32Congruent | src/app/lib/dataUtils.js:6 | inputs congruent modulo 2^32 give the same 32-bit value |
| DataUtils.HashStepIsMultiplyAdd | src/app/lib/dataUtils.js:5-6 | one loop step `(hash << 5) - hash + code` is multiplication by 31 plus the code, in 32-bit arithmetic |
| DataUtils.HashFold | src/app/lib/dataUtils.js:3-7 | the hash before `Math.abs` is a signed 32-bit integer |
| DataUtils.HashFoldIsPolynomial | src/app/lib/dataUtils.js:2-9 | the loop computes the polynomial hash `sum code[i]*31^(n-1-i)` reduced to 32 bits |
| DataUtils.HashCode | src/app/lib/dataUtils.js:2-9 | the loop's result is the absolute value of the folded hash, never negative and at most 2^31 |
| DataUtils.Hash | src/app/lib/dataUtils.js:2-9 | the hash the scores use is between 0 and 2^31 |
| DataUtils.FormScoreTenths | src/app/lib/dataUtils.js:27-30 | the form score lies between 5.2 and 9.2 |
| DataUtils.FormTrend | src/app/lib/dataUtils.js:32-35 | the trend is down exactly when the hash of id+"trend" is a multiple of 3 |
| DataUtils.ConsistencyScoreTenths | src/app/lib/dataUtils.js:37-40 | the consistency score lies between 4.8 and 9.3 |
| DataUtils.ConsistencyTrend | src/app/lib/dataUtils.js:42-45 | the trend is down exactly when the hash of id+"ctrend" is a multiple of 4 |
| DataUtils.Attendance7d | src/app/lib/dataUtils.js:47-50 | the 7-day attendance is a percentage from 43 to 100 |
| DataUtils.Attendance30d | src/app/lib/dataUtils.js:52-55 | the 30-day attendance is a percentage from 62 to 100 |
| DataUtils.AnonymousAthleteForm | src/app/lib/dataUtils.js:2-30 | an athlete without id or email hashes `''` to 0 and gets form 5.2 |
| DataUtils.HealthRisk | src/app/lib/dataUtils.js:16-22 | high exactly with health issues; medium exactly without them and with a BMI outside 18.5..30; low otherwise, including without a BMI |
| DataUtils.TeamReadinessScore | src/app/lib/dataUtils.js:57-61 | 0 for no athletes; otherwise the share of ready athletes times 100, rounded: within one half of it, 100 when all are ready and 0 when none is |
| DataUtils.AllAtRiskNotReady | src/app/lib/dataUtils.js:57-61 | a team where everyone has health issues has readiness 0 |
| DataUtils.SessionCompleted | src/app/lib/dataUtils.js:74 | a session's completed exercises never exceed its exercises |
| DataUtils.CompletedExercises | src/app/lib/dataUtils.js:65-68 | completed exercises over all sessions never exceed all exercises |
| DataUtils.LoadBalanceScore | src/app/lib/dataUtils.js:63-71 | score 100/OK without sessions or exercises; otherwise the rounded completed percentage; status OK exactly at 70 or more |
| DataUtils.SessionIntensity | src/app/lib/dataUtils.js:73-81 | the band of the completed percentage (total read as 1 when empty): 80, 60 and 40 are the thresholds |
| DataUtils.EmptySessionIsLow | src/app/lib/dataUtils.js:73-81 | a session without exercises has low intensity |
| DataUtils.RiskIconOf | src/app/lib/dataUtils.js:83-93 | critical iff high risk and form below 6; high iff high risk otherwise; medium iff medium risk; attendance iff low risk and 7-day attendance below 60 |
| DataUtils.HighIconsNeedHealthIssues | src/app/lib/dataUtils.js:83-93 | the critical and high icons occur exactly for athletes with health issues |
| Text.IndexOf | src/app/hooks/useSmplMeshLoader.js:299 | the position of the first separator, or the length when there is none |
| Text.Split | src/app/hooks/useSmplMeshLoader.js:375 | `split` on a one-character separator always yields at least one part |
| Text.JoinSplit | src/app/hooks/useSmplMeshLoader.js:375 | joining the parts of a split with the separator gives back the input |
| Text.SplitPartsSeparatorFree | src/app/hooks/useSmplMeshLoader.js:375 | no part of a split contains the separator |
| Text.StartsWithTagIffFirstPart | src/app/hooks/useSmplMeshLoader.js:20-21 | a path starts with `tag/` exactly when its first `/`-part is `tag` and there is a second part |
| Text.ToLower | src/app/components/AthletesList.jsx:149-150 | lowercasing keeps the length and maps each character |
| Text.IncludesEmpty | src/app/components/AthletesList.jsx:147-150 | the empty search term occurs in every string |
| Text.DigitChar | src/app/api/workout-api.js:23-24 | a digit's character is between '0' and '9' and has that digit's value |
| Text.NatToString | src/app/api/workout-api.js:23-24 | `String(n)` of a natural number is a non-empty run of digits |
| Text.Pad2 | src/app/api/workout-api.js:23-24 | `padStart(2, '0')` gives at least two characters |
| Text.Pad2Digits | src/app/api/workout-api.js:23-24 | the padded rendering is made of digits only |
| Text.DigitsValueOfNatToString | src/app/api/workout-api.js:23-24 | the digits of `String(n)` have the value `n` |
| Text.NatToStringLength | src/app/api/workout-api.js:23-24 | `String(n)` fits in `width` characters exactly when `n < 10^width` |
| Text.ParseDigits | src/app/components/WorkoutSchedulePlanner.jsx:367 | the leading digits parse to a non-negative value, none without a leading digit |
| Text.LeadingDigits | src/app/components/WorkoutSchedulePlanner.jsx:367 | the longest prefix of digits: a prefix, digits only, followed by a non-digit or the end |
| Text.ParseIntOfIntToString | src/app/components/WorkoutSchedulePlanner.jsx:219 | `parseInt(String(n))` is `n` for every integer, negative ones included |
| Numeric.Round | src/app/components/SessionsToday.jsx:449 | `Math.round` gives the integer within one half below and strictly less than one half above |
| Numeric.RoundMonotone | src/app/components/attendance/AthleteLeaderboardCard.jsx:77 | rounding never reverses the order of two values |
| Numeric.RoundOfInteger | src/app/components/attendance/AthleteLeaderboardCard.jsx:77 | rounding keeps a whole number |
| Numeric.RoundBetween | src/app/components/attendance/AthleteLeaderboardCard.jsx:77 | a value between two integers rounds to between them |
| Numeric.RoundedPercent | src/app/components/SessionsToday.jsx:449 | the rounded percentage of a part of a whole is in [0, 100], 100 for the whole, 0 for nothing, and within one half of the exact value |
| Numeric.Tenths | src/app/components/attendance/SessionOverviewCard.jsx:25 | `toFixed(1)` of a non-negative value is a non-negative count of tenths within one half-tenth of the value |
| Seqs.Filter | src/app/components/AthletesList.jsx:147-168 | `filter` keeps only entries that pass, never more than the list |
| Seqs.FilterMembers | src/app/components/AthletesList.jsx:147-168 | an entry is kept exactly when it is in the list and passes |
| Seqs.FilterKeepsAll | src/app/components/AthletesList.jsx:147-168 | a test every entry passes keeps the whole list |
| Seqs.CountWhere | src/app/lib/dataUtils.js:59 | `filter(p).length` never exceeds the length |
| Seqs.CountIsFilterLength | src/app/lib/dataUtils.js:59 | the count is the length of the filtered list |
| Seqs.CountSplits | src/app/components/AthletesList.jsx:170-174 | the entries that pass and those that fail together make up the list |
| Seqs.CountZero | src/app/lib/dataUtils.js:59 | the count is zero exactly when no entry passes |
| Seqs.CountThreeWay | src/app/components/AthletesList.jsx:170-174 | three exclusive and exhaustive classes count up to the length |
| Seqs.Distinct | src/app/components/SessionsToday.jsx:111 | `[...new Set(xs)]` holds exactly the entries of `xs`, each once |
| Seqs.DistinctAppend | src/app/components/SessionsToday.jsx:111 | appending an entry appends it to the distinct entries exactly when it is new |
| Sorting.Insert | src/app/components/attendance/AthleteLeaderboardCard.jsx:68 | insertion adds exactly the one entry |
| Sorting.InsertSorted | src/app/components/attendance/AthleteLeaderboardCard.jsx:68 | inserting into a sorted list keeps it sorted |
| Sorting.SortBy | src/app/components/attendance/AthleteLeaderboardCard.jsx:68 | sorting is a permutation |
| Sorting.SortBySorted | src/app/components/attendance/AthleteLeaderboardCard.jsx:68 | the sorted copy is ordered by the key and is a permutation of the list |
| Sorting.SortBySortedInput | src/app/components/attendance/AthleteLeaderboardCard.jsx:68 | a list already ordered is left as it is |
| Sorting.Take | src/app/components/attendance/AthleteLeaderboardCard.jsx:69 | `slice(0, n)` keeps the first `min(n, length)` entries unchanged |
| Dates.Pad2OfSmall | src/app/api/workout-api.js:23-24 | a number below 100 pads to exactly two digits with its value |
| Dates.FormatYmdRoundTrip | src/app/api/workout-api.js:20-26 | every valid date formats as an RFC 3339 full-date that reads back as the same date |
| Dates.Weekday | src/app/api/workout-api.js:32 | `getDay()` is between 0 (Sunday) and 6 |
| WorkoutApi.NewRecord | src/app/api/workout-api.js:140-151 | a new record takes 15 reps, 3 sets and weight 0 unless given, the fresh instance id, and no notes |
| WorkoutApi.ApplyUpdates | src/app/api/workout-api.js:196-203 | only the defined allowed fields (reps, sets, weight, notes) change, `updatedAt` is stamped, every other field is kept |
| WorkoutApi.FindIndex | src/app/api/workout-api.js:191 | `findIndex` is the first position with the id, or "not found" when no exercise carries it |
| WorkoutApi.WithoutInstance | src/app/api/workout-api.js:229-231 | removal never lengthens the day |
| WorkoutApi.WithoutInstanceMembers | src/app/api/workout-api.js:229-231 | an exercise is kept exactly when it is in the day and carries another id |
| WorkoutApi.WithoutAbsentInstance | src/app/api/workout-api.js:229-231 | removing an id no exercise carries changes nothing |
| WorkoutApi.WithoutUniqueInstance | src/app/api/workout-api.js:229-231 | removing an id carried once removes exactly that exercise and keeps the order of the rest |
| WorkoutApi.Reordered | src/app/api/workout-api.js:257-259 | the reordered day has at most one exercise per listed id, all taken from the day; ReorderedIsFirstMatches gives it in full |
| WorkoutApi.ReorderedIsFirstMatches | src/app/api/workout-api.js:257-259 | the day becomes, in the order listed, the first exercise carrying each listed id the day has: unknown ids are dropped and unlisted exercises removed |
| WorkoutApi.InstanceIds | src/app/api/workout-api.js:257-259 | the ids of a day, position by position |
| WorkoutApi.ReorderedByOwnIds | src/app/api/workout-api.js:257-259 | reordering a day with distinct ids by its own ids in their order gives back the day |
| WorkoutApi.ReorderedSuffix | src/app/api/workout-api.js:257-259 | reordering by the ids of a suffix of the day gives that suffix |
| WorkoutApi.FindIndexOfDistinct | src/app/api/workout-api.js:258 | in a day with distinct ids, `find` on an exercise's id finds that exercise |
| WorkoutApi.UnknownIdsDropped | src/app/api/workout-api.js:259 | ids that are not in the day are dropped by `filter(Boolean)` |
| WorkoutApi.Copies | src/app/api/workout-api.js:290-295 | copies keep every exercise field and take a fresh id, the new `addedAt` and the source date |
| WorkoutApi.PlanDocument.constructor | src/app/api/workout-api.js:153-161 | the plan document as the transaction reads it: whether it exists and `data.workouts \|\| {}` |
| WorkoutApi.PlanDocument.NormalizeDay | src/app/api/workout-api.js:55-74 | a missing or falsy day becomes `[]`, a list stays, a legacy object becomes the concatenation of its list values; no other date changes |
| WorkoutApi.PlanDocument.AddExercise | src/app/api/workout-api.js:134-173 | the plan exists afterwards (created empty when missing), the day is normalised and the new record appended, and the fresh id is returned |
| WorkoutApi.PlanDocument.UpdateExercise | src/app/api/workout-api.js:175-213 | a missing plan or an unknown id fails with the source's message and writes nothing; otherwise only the found exercise is updated |
| WorkoutApi.PlanDocument.RemoveExercise | src/app/api/workout-api.js:215-241 | nothing without a plan; otherwise the day keeps, in order, the exercises with another id |
| WorkoutApi.PlanDocument.ReorderExercises | src/app/api/workout-api.js:243-269 | nothing without a plan; otherwise the day becomes the listed ids' exercises |
| WorkoutApi.PlanDocument.CopyWorkout | src/app/api/workout-api.js:271-305 | fails without a plan or with an empty source day, writing nothing; otherwise the target day becomes the copies of the source day |
| WorkoutApi.PlanDocument.ClearWorkoutByDate | src/app/api/workout-api.js:307-329 | nothing without a plan; otherwise only that date's entry is deleted |
| WorkoutApi.EditsTouchOnlyTheirDate | src/app/api/workout-api.js:162-165 | writing or deleting one date leaves every other date as it was |
| WorkoutApi.AppendThenRemove | src/app/api/workout-api.js:163-231 | removing the id of an appended exercise whose id is new gives back the day |
| WorkoutApi.AddThenRemove | src/app/api/workout-api.js:134-241 | adding an exercise with a fresh id and then removing that id gives back the normalised day |
| WorkoutApi.NormalizeKeepsLists | src/app/api/workout-api.js:61-63 | normalisation leaves an already flat day unchanged |
| WorkoutApi.FormatDateRoundTrip | src/app/api/workout-api.js:20-26 | a four-digit-year date formats as `YYYY-MM-DD` and reads back as the same date |
| WorkoutApi.MondayOfWeek | src/app/api/workout-api.js:32-35 | the Monday of a day's week is a Monday at most six days before it |
| WorkoutApi.SameFormattedDate | src/app/api/workout-api.js:44 | two valid dates format the same exactly when they are the same date (the `isToday` test) |
| WorkoutApi.DaysFrom | src/app/api/workout-api.js:37-46 | the run of consecutive days has the requested length |
| WorkoutApi.DaysFromIndex | src/app/api/workout-api.js:37-46 | entry `i` of the run is day `first + i` |
| WorkoutApi.GetWeekDates | src/app/api/workout-api.js:28-49 | seven entries, entry `i` being the day `Monday + i` of the reference day's week |
| WorkoutApi.WeekRunsMondayToSunday | src/app/api/workout-api.js:28-49 | entry `i` falls on weekday `(i + 1) % 7`, and the reference day lies within the week |
| Planner.GymRefOf | src/app/components/WorkoutSchedulePlanner.jsx:20-28 | `gym.gymId \|\| gym.id \|\| gym`: the first truthy id, else the gym value itself |
| Planner.GetGymId | src/app/components/WorkoutSchedulePlanner.jsx:13-31 | none without a trainer; the trainer's own truthy `gymId` first, then the first entry of a non-empty `gyms`, then a truthy `gym` (its `gymId`, else `id`, else itself), else none; an id returned as text is never empty |
| Planner.GymIdMissing | src/app/components/WorkoutSchedulePlanner.jsx:13-31 | without `gymId` and `gyms`, the gym id is missing exactly when `gym` is missing or falsy |
| Planner.EmptyFirstGymHidesGym | src/app/components/WorkoutSchedulePlanner.jsx:20-23 | an empty string first in `gyms` is returned as it is, so no usable gym id is found even when `gym` has one |
| Planner.LegacyEntry | src/app/components/WorkoutSchedulePlanner.jsx:427-431 | a legacy exercise takes `parseInt(key)` as its muscle id and keeps a truthy instance id or receives one; nothing else changes |
| Planner.LegacyEntries | src/app/components/WorkoutSchedulePlanner.jsx:425-432 | each exercise of a legacy field is mapped in order |
| Planner.LegacyExercisesAgree | src/app/components/WorkoutSchedulePlanner.jsx:418-436 | a legacy day shows the same exercises in the same order as the API's `normalizeDay` flattening, each with an instance id |
| Planner.ExercisesForDateAgree | src/app/components/WorkoutSchedulePlanner.jsx:418-436 | every day shows the API's normalised day, up to the ids it fills in |
| Planner.FilteredExercises | src/app/components/WorkoutSchedulePlanner.jsx:217-221 | every listed exercise matches the search text (ignoring case) and the muscle selection |
| Planner.FilteredExercisesMembers | src/app/components/WorkoutSchedulePlanner.jsx:217-221 | an exercise is listed exactly when it is in the library and matches |
| Planner.UnfilteredLibrary | src/app/components/WorkoutSchedulePlanner.jsx:217-221 | with no search text and "all" muscles, the whole library is listed in order |
| Planner.UnparsableMuscleListsNothing | src/app/components/WorkoutSchedulePlanner.jsx:219 | a muscle selection that `parseInt` cannot read (NaN) lists nothing |
| Planner.Enriched | src/app/components/WorkoutSchedulePlanner.jsx:201-206 | an athlete keeps its own name, else takes the looked-up non-empty name, else has none |
| Planner.FilteredAthletes | src/app/components/WorkoutSchedulePlanner.jsx:209-214 | every listed athlete has the search text in its name or email, ignoring case |
| Planner.FilteredAthletesMembers | src/app/components/WorkoutSchedulePlanner.jsx:201-214 | an athlete is listed, with its name filled in, exactly when it matches the search |
| Planner.TempId | src/app/components/WorkoutSchedulePlanner.jsx:238 | the temporary id starts with `temp_` |
| Planner.TempEntry | src/app/components/WorkoutSchedulePlanner.jsx:239-246 | the dropped exercise as first shown: temporary id, time, 15 reps, 3 sets, weight 0, the rest as dragged |
| Planner.ReplaceInstanceId | src/app/components/WorkoutSchedulePlanner.jsx:288-292 | the entries with the temporary id take the saved id; the others are unchanged |
| Planner.Merged | src/app/components/WorkoutSchedulePlanner.jsx:395 | `{ ...ex, ...editFormData }`: the form's four fields replace the exercise's, nothing else changes |
| Planner.MergeEdit | src/app/components/WorkoutSchedulePlanner.jsx:393-397 | exactly the exercises with the edited instance id are merged |
| Planner.PlannerState.constructor | src/app/components/WorkoutSchedulePlanner.jsx:42-62 | an empty plan, no drag, no save status, the current week, and the default edit form |
| Planner.PlannerState.NavigateWeek | src/app/components/WorkoutSchedulePlanner.jsx:190-194 | the reference day moves by seven days per step; every other field is unchanged |
| Planner.PlannerState.ShowDropped | src/app/components/WorkoutSchedulePlanner.jsx:248-257 | the day as shown (normalised when legacy) gets the temporary entry at its end; other state unchanged |
| Planner.PlannerState.SaveToFirebase | src/app/components/WorkoutSchedulePlanner.jsx:263-311 | without athlete, organization or gym id nothing is sent; an answer replaces the temporary id and sets "saved"; a failure removes the temporary entry and sets "error" |
| Planner.PlannerState.HandleDrop | src/app/components/WorkoutSchedulePlanner.jsx:234-261 | nothing without an athlete or a dragged exercise; otherwise the entry is shown, the save runs (status saved or error, unchanged when it cannot start), the drag ends, and the week and the editor are unchanged |
| Planner.PlannerState.RemoveExercise | src/app/components/WorkoutSchedulePlanner.jsx:313-344 | the local day loses the id only once the backend has removed it |
| Planner.PlannerState.OpenEditModal | src/app/components/WorkoutSchedulePlanner.jsx:347-356 | the form starts from the exercise, with 15, 3, 0 and "" for its falsy fields; the plan, the week, the drag and the save status are unchanged |
| Planner.PlannerState.CloseEditModal | src/app/components/WorkoutSchedulePlanner.jsx:358-362 | the editor closes and the form returns to its defaults |
| Planner.PlannerState.HandleEditFormChange | src/app/components/WorkoutSchedulePlanner.jsx:364-369 | notes keep the text; reps, sets and weight take `parseInt(value) \|\| 0`; only the form changes |
| Planner.PlannerState.SaveExerciseEdit | src/app/components/WorkoutSchedulePlanner.jsx:371-408 | nothing without an exercise, date, athlete, gym id or backend success; otherwise the form is merged into the edited exercise and the editor closes, the week, drag and save status unchanged |
| Planner.DropThenSaved | src/app/components/WorkoutSchedulePlanner.jsx:234-311 | a drop whose save answers shows the exercise under the server's id at the end of the day |
| Planner.DropThenFailed | src/app/components/WorkoutSchedulePlanner.jsx:234-311 | a drop whose save fails leaves the day as it was shown before the drop |
| Planner.DropWithoutGym | src/app/components/WorkoutSchedulePlanner.jsx:263-271 | a drop that finds no gym id keeps the temporary entry: there is no rollback |
| Planner.NavigateWeekShiftsMonday | src/app/components/WorkoutSchedulePlanner.jsx:190-194 | a step forward shows the week whose Monday is seven days later |
| FrameSource.DetectStorageType | src/app/hooks/useSmplMeshLoader.js:18-23 | `pose_data` exactly for paths starting `pose_data/`, `smpl_data` exactly for `smpl_data/`, none otherwise, including the empty path |
| FrameSource.DetectStorageTypeByFirstSegment | src/app/hooks/useSmplMeshLoader.js:18-23 | the family is decided by the first `/`-segment alone |
| FrameSource.BuildFrameUrls | src/app/hooks/useSmplMeshLoader.js:370-393 | none for an empty path, no file names or fewer than four segments; otherwise one URL per file name, in order, each the folder URL, `/` and the name |
| FrameSource.BuildFrameUrlsEndInFilename | src/app/hooks/useSmplMeshLoader.js:384-392 | each URL ends in `/` and its own file name |
| FrameSource.BuildFrameUrlsTemplate | src/app/hooks/useSmplMeshLoader.js:384-392 | the pose route is used exactly for `pose_data/` paths; every other prefix gets the legacy route |
| FrameSource.BuildFrameUrlsIgnoresLaterSegments | src/app/hooks/useSmplMeshLoader.js:375-381 | paths that agree on their first four segments yield the same URLs |
| FrameSource.SplitFourFields | src/app/hooks/useSmplMeshLoader.js:375-381 | four separator-free fields joined by `/` split back into those fields |
| FrameSource.FrameUrlFields | src/app/hooks/useSmplMeshLoader.js:384-392 | after the route, a frame URL's segments are the path's user, session and folder and the file name |
| FrameSource.PoseFrameUrls | src/app/hooks/useSmplMeshLoader.js:404-410 | the hook's guard on an empty listing adds nothing to `buildFrameUrls` |
| FrameSource.FrameFilenames.constructor | src/app/hooks/useSmplMeshLoader.js:277-280 | no names, not loading, no error, no family |
| FrameSource.FrameFilenames.Begin | src/app/hooks/useSmplMeshLoader.js:282-327 | an empty path resets everything; fewer than four segments or an unknown family end in an error without a request; otherwise names are cleared, loading starts and the family's listing URL is requested |
| FrameSource.FrameFilenames.Complete | src/app/hooks/useSmplMeshLoader.js:327-352 | an HTTP error carries status and body; a thrown error its message; a listing without `success` and a file array leaves no names; loading always ends |
| FrameSource.ListFrameFilenames | src/app/hooks/useSmplMeshLoader.js:276-359 | a request is sent exactly for a non-empty path with four segments and a known family; on success the listed names are kept |
| FrameSource.MeshLoader.constructor | src/app/hooks/useSmplMeshLoader.js:32-34 | no vertices, not loading, no error |
| FrameSource.MeshLoader.Begin | src/app/hooks/useSmplMeshLoader.js:37-56 | an empty URL clears everything; otherwise loading starts and the error is cleared |
| FrameSource.MeshLoader.Complete | src/app/hooks/useSmplMeshLoader.js:63-95 | any decoded frame is accepted, with a warning exactly when it is not 6890 x 3 floats; an HTTP error or failure sets the error and drops the vertices; an abort keeps the state; loading ends |
| FramePreloader.ProcessedCount | src/app/hooks/useSmplMeshLoader.js:157-192 | the counted frames are all of them without an abort, otherwise those of the batches before it, never more than all |
| FramePreloader.LoadedMapKeys | src/app/hooks/useSmplMeshLoader.js:182-185 | a URL is a key of the loaded map exactly when one of its fetches succeeded |
| FramePreloader.LoadedMapEmpty | src/app/hooks/useSmplMeshLoader.js:194-196 | the map is empty exactly when no fetch succeeded |
| FramePreloader.LoadedMapLastWins | src/app/hooks/useSmplMeshLoader.js:182-185 | the frame stored under a URL is that of its last successful fetch |
| FramePreloader.PercentMonotone | src/app/hooks/useSmplMeshLoader.js:187 | more counted frames never show less progress |
| FramePreloader.PercentOfAll | src/app/hooks/useSmplMeshLoader.js:187 | counting every frame shows 100 |
| FramePreloader.LoadedMapStep | src/app/hooks/useSmplMeshLoader.js:182-186 | counting one more result stores it when it is a frame |
| FramePreloader.Preloader.constructor | src/app/hooks/useSmplMeshLoader.js:114-117 | no frames, not loading, progress 0, no error |
| FramePreloader.Preloader.Load | src/app/hooks/useSmplMeshLoader.js:120-204 | an empty list clears frames and progress; otherwise the frames are the map of the successful fetches before the abort, progress starts at 0 and never decreases up to the counted share, an empty map sets the error; loading ends |
| FramePreloader.Preloader.CountBatch | src/app/hooks/useSmplMeshLoader.js:180-191 | one batch's results are stored in order and each is counted in the progress, which never decreases |
| FramePreloader.CompleteLoadReaches100 | src/app/hooks/useSmplMeshLoader.js:157-192 | without an abort every frame is counted and the progress ends at 100 |
| Playback.AdvanceInRange | src/app/components/smpl/MotionReplayPlayer.jsx:73-84 | an advance from a frame in range stays in range: the next frame, or past the end frame 0 when looping, else the same frame with play stopped |
| Playback.AdvanceCycle | src/app/components/smpl/MotionReplayPlayer.jsx:73-84 | with looping on, `k` advances move `k` frames on modulo the length, and a full cycle comes back to the start |
| Playback.AdvanceN | src/app/components/smpl/MotionReplayPlayer.jsx:73-84 | any number of looping advances stays in range |
| Playback.RenderView | src/app/components/smpl/MotionReplayPlayer.jsx:147-201 | loading is shown exactly while loading with no frame; the error exactly after that with an error and no frame; then the empty state without URLs; else the player |
| Playback.LoadedPercentage | src/app/components/smpl/MotionReplayPlayer.jsx:144-145 | 0 without frames, in [0, 100] when no more frames are loaded than exist, 100 when all are |
| Playback.Player.constructor | src/app/components/smpl/MotionReplayPlayer.jsx:43-49 | frame 0, play flag from `autoPlay`, the given rate, menu closed, nothing scheduled |
| Playback.Player.Restart | src/app/components/smpl/MotionReplayPlayer.jsx:92-103 | a callback is scheduled exactly while playing with frames, with the clock reset to `now`; nothing else changes |
| Playback.Player.Tick | src/app/components/smpl/MotionReplayPlayer.jsx:66-89 | it advances exactly when scheduled, playing and a frame interval has elapsed, wrapping or stopping at the end; rescheduling stops once paused; the frame stays in range |
| Playback.Player.PlayPause | src/app/components/smpl/MotionReplayPlayer.jsx:113-116 | nothing without frames, otherwise the play flag flips |
| Playback.Player.PrevFrame | src/app/components/smpl/MotionReplayPlayer.jsx:118-121 | pauses and moves one frame back, never below 0 |
| Playback.Player.NextFrame | src/app/components/smpl/MotionReplayPlayer.jsx:123-126 | pauses and moves one frame on, never past the last frame |
| Playback.Player.Reset | src/app/components/smpl/MotionReplayPlayer.jsx:128-131 | pauses on frame 0 |
| Playback.Player.Scrub | src/app/components/smpl/MotionReplayPlayer.jsx:133-136 | pauses on the slider's frame |
| Playback.Player.ChangeFps | src/app/components/smpl/MotionReplayPlayer.jsx:138-141 | the rate changes and the menu closes; nothing else |
| Playback.Player.SetFrameUrls | src/app/components/smpl/MotionReplayPlayer.jsx:32-45 | new URLs from the parent keep the frame index |
| Playback.Player.CurrentVertices | src/app/components/smpl/MotionReplayPlayer.jsx:55-60 | the loaded frame of the current URL exactly when the index is in range and that URL is loaded; none without URLs |
| Playback.ShrinkLeavesNoFrame | src/app/components/smpl/MotionReplayPlayer.jsx:43-60 | a shorter URL list can leave the player on an index with no frame to show |
| Playback.PlayThrough | src/app/components/smpl/MotionReplayPlayer.jsx:66-89 | playing through with looping on never leaves the frame range and advances at most once per callback |
| FaceCache.ToUint32 | src/app/components/smpl/SmplMeshViewer.jsx:52 | storing a number in a `Uint32Array` reduces it modulo 2^32 and keeps values already in range |
| FaceCache.Flatten | src/app/components/smpl/SmplMeshViewer.jsx:52 | every flattened index is a 32-bit unsigned value |
| FaceCache.FlattenLength | src/app/components/smpl/SmplMeshViewer.jsx:52 | `flat()` is as long as all faces together |
| FaceCache.FlattenTriangles | src/app/components/smpl/SmplMeshViewer.jsx:52 | for triangles, entry `j` of face `i` lands at position `3i + j` |
| FaceCache.FaceIndexCache.constructor | src/app/components/smpl/SmplMeshViewer.jsx:9-11 | no cached indices and no promise |
| FaceCache.FaceIndexCache.Load | src/app/components/smpl/SmplMeshViewer.jsx:16-65 | the cache when set, else the pending load, else one new request; never two requests at once |
| FaceCache.FaceIndexCache.Settle | src/app/components/smpl/SmplMeshViewer.jsx:32-62 | a successful body with faces is flattened and cached; any failure resolves to nothing, keeps the cache empty and forgets the promise |
| FaceCache.FailureIsRetried | src/app/components/smpl/SmplMeshViewer.jsx:57-61 | after a failed load the next call sends a new request |
| FaceCache.SuccessIsCached | src/app/components/smpl/SmplMeshViewer.jsx:18-21 | after a successful load every call gets the cached array without a request |
| FaceCache.Viewer.constructor | src/app/components/smpl/SmplMeshViewer.jsx:304-306 | no indices, not loading, no error |
| FaceCache.Viewer.Effect | src/app/components/smpl/SmplMeshViewer.jsx:309-347 | nothing in point mode; the cached indices when there are any; otherwise a load starts only when the viewer has no indices and is not loading |
| FaceCache.Viewer.Resolve | src/app/components/smpl/SmplMeshViewer.jsx:333-346 | indices are adopted; a null result sets the "Failed to load face indices" error; loading ends |
| FaceCache.ViewerState | src/app/components/smpl/SmplMeshViewer.jsx:349-376 | loading wins, then an error (the frame's own first), then the empty state without vertices, else the canvas |
| FaceCache.SmplMesh | src/app/components/smpl/SmplMeshViewer.jsx:71-150 | a mesh exactly when there are vertices, with those positions, an index exactly when face indices exist, flipped half a turn about X |
| ReplayModal.FilterMotion | src/app/components/sessions/MotionReplayModal.jsx:198-200 | exactly the exercises that have at least one recording folder are kept |
| ReplayModal.ExercisesWithMotion | src/app/components/sessions/MotionReplayModal.jsx:197-201 | none without a session or exercises; every kept exercise has a recording |
| ReplayModal.FilterMotionKeepsOrder | src/app/components/sessions/MotionReplayModal.jsx:198-200 | the kept exercises are a subsequence of the session's, in its order |
| ReplayModal.CurrentFolder | src/app/components/sessions/MotionReplayModal.jsx:205-208 | a folder exactly when both indices are in range, and then the selected one |
| ReplayModal.ModalFrameUrls | src/app/components/sessions/MotionReplayModal.jsx:218-234 | none without a path or file names or unless the path has four segments starting `smpl_data`; otherwise one legacy frame URL per file name, in order |
| ReplayModal.ModalUrlsAgreeForSmplData | src/app/components/sessions/MotionReplayModal.jsx:218-234 | for `smpl_data` folders the modal's URLs are exactly those of `buildFrameUrls` |
| ReplayModal.ModalRejectsPoseData | src/app/components/sessions/MotionReplayModal.jsx:223-225 | a `pose_data` folder never gets URLs in the modal, although `buildFrameUrls` would give them |
| ReplayModal.PanelFor | src/app/components/sessions/MotionReplayModal.jsx:388-405 | the player exactly with URLs; else the file-loading spinner while loading; else "Preparing" with an exercise and a folder; else no recordings |
| ReplayModal.PoseDataShowsPreparing | src/app/components/sessions/MotionReplayModal.jsx:388-405 | once its files have arrived, a selected `pose_data` folder stays on the "Preparing" spinner |
| ReplayModal.Selection.constructor | src/app/components/sessions/MotionReplayModal.jsx:192-193 | the first exercise and the first recording |
| ReplayModal.Selection.SelectExercise | src/app/components/sessions/MotionReplayModal.jsx:236-239 | choosing another exercise resets the recording to the first |
| ReplayModal.Selection.SelectRecording | src/app/components/sessions/MotionReplayModal.jsx:337 | the recording changes, the exercise does not |
| ReplayModal.SwitchExercise | src/app/components/sessions/MotionReplayModal.jsx:205-239 | after switching to another exercise with recordings, the selected folder is its first one |
| ReplayModal.ModalState.constructor | src/app/components/sessions/MotionReplayModal.jsx:436-438 | closed, no session, empty name |
| ReplayModal.ModalState.OpenModal | src/app/components/sessions/MotionReplayModal.jsx:440-444 | opens with the session and name |
| ReplayModal.ModalState.CloseModal | src/app/components/sessions/MotionReplayModal.jsx:446-453 | hides at once and starts one delayed clear, the data staying until it fires |
| ReplayModal.ModalState.ClearTimerFires | src/app/components/sessions/MotionReplayModal.jsx:449-452 | the timer clears the session and name whatever the modal does now |
| ReplayModal.ReopenWithinDelay | src/app/components/sessions/MotionReplayModal.jsx:440-453 | reopening before the pending clear fires leaves the modal open with no session |
| AthletesList.LookupOfKeys | src/app/components/AthletesList.jsx:69-72 | an id is a key of the lookup exactly when some record carries it, and maps to one of those records |
| AthletesList.LookupOfLast | src/app/components/AthletesList.jsx:69-72 | the lookup holds, for an id, the last record carrying it |
| AthletesList.BuildLookup | src/app/components/AthletesList.jsx:69-72 | the `forEach` loop builds the lookup in which a later record with the same id overwrites an earlier one |
| AthletesList.RiskHighOnlyWithHealthIssues | src/app/components/AthletesList.jsx:104-116 | the "below 30" branch is never reached: high exactly with health issues, medium exactly without them and with 30-day attendance or completion below 50 |
| AthletesList.IconFor | src/app/components/AthletesList.jsx:119-123 | critical iff high risk and form below 5; high iff high risk otherwise; medium iff medium risk; attendance iff low risk and 7-day attendance below 50 |
| AthletesList.StatsFor | src/app/components/AthletesList.jsx:74-142 | zeros for a missing record; form is completion / 10; consistency at most 10; form trend up iff the week's completion is at least the month's; consistency trend up iff the week has at least 3 sessions; no empty last session; risk and icon by the rules above |
| AthletesList.EnrichedAthletes | src/app/components/AthletesList.jsx:62-143 | one entry per athlete in order; no statistics for anyone without the month report, statistics for everyone with it; the figures come from the athlete's own records (the lemmas below) |
| AthletesList.AbsentFromMonthGetsZeros | src/app/components/AthletesList.jsx:76-92 | an athlete missing from the month report gets zeros for the 30-day figures |
| AthletesList.AbsentFromWeekGetsZeros | src/app/components/AthletesList.jsx:64-101 | an athlete missing from the week report gets 0 for 7-day attendance and a down consistency trend |
| AthletesList.MonthFiguresFromOwnRecord | src/app/components/AthletesList.jsx:66-83 | the 30-day attendance, completion and session counts are those of the last month record carrying the athlete's id |
| AthletesList.WeekFiguresFromOwnRecord | src/app/components/AthletesList.jsx:64-101 | the 7-day attendance and both trends come from the last week record carrying the athlete's id |
| AthletesList.FilteredAthletes | src/app/components/AthletesList.jsx:147-168 | every listed athlete passes the search, risk, batch, attendance and form filters |
| AthletesList.FilteredAthletesMembers | src/app/components/AthletesList.jsx:147-168 | an athlete is listed exactly when it passes the filter |
| AthletesList.FormToggleNeedsStats | src/app/components/AthletesList.jsx:163-165 | without statistics, the declining-form toggle hides every athlete |
| AthletesList.RiskCountsTotal | src/app/components/AthletesList.jsx:170-174 | with the month report the three counts add up to the athletes; without it they are all 0 |
| AthletesList.UniqueBatches | src/app/components/AthletesList.jsx:145 | each batch (a missing one being "General") once |
| AthletesList.MiniSparkline | src/app/components/AthletesList.jsx:416-421 | seven bars of which exactly the last `min(sessions, 7)` are active |
| SessionsToday.FormatDateForApiRoundTrip | src/app/components/SessionsToday.jsx:14-19 | the date sent is a full `YYYY-MM-DD` date that parses back to the selected date |
| SessionsToday.EndpointFor | src/app/components/SessionsToday.jsx:42-46 | the today endpoint is used exactly when the selected date is today; otherwise the by-date query carries the selected date |
| SessionsToday.CompletedCount | src/app/components/SessionsToday.jsx:105 | completed exercises never exceed the exercises of the session |
| SessionsToday.PlannedCount | src/app/components/SessionsToday.jsx:104 | the planned count is at least 1 (an empty session counts as one) and at least the completed count |
| SessionsToday.Pct | src/app/components/SessionsToday.jsx:115-117 | the completed share lies in [0, 1] and is 0 for a session without exercises |
| SessionsToday.AsPlannedInCounts | src/app/components/SessionsToday.jsx:103-107 | a session is as planned exactly when 5 × completed ≥ 4 × planned (the 80% threshold) |
| SessionsToday.EmptySessionDeviates | src/app/components/SessionsToday.jsx:103-108 | a session without exercises always counts as having deviations |
| SessionsToday.PlanSummary | src/app/components/SessionsToday.jsx:103-108 | as-planned plus with-deviations is the number of sessions, and with-deviations counts exactly the sessions below 80% |
| SessionsToday.FilteredSessions | src/app/components/SessionsToday.jsx:114-127 | every listed session passes the tab test and the batch test |
| SessionsToday.FilteredSessionsMembers | src/app/components/SessionsToday.jsx:114-127 | a session is listed exactly when it passes the tab and the batch test |
| SessionsToday.AllTabListsEverything | src/app/components/SessionsToday.jsx:119-124 | the "all" tab with every batch lists every session in order |
| SessionsToday.FlaggedCompletedOnlyWhenClosed | src/app/components/SessionsToday.jsx:120-121 | a session both flagged and under "completed" is a closed session |
| SessionsToday.UniqueBatches | src/app/components/SessionsToday.jsx:111 | each session batch (a missing one being "General") appears exactly once |
| SessionsToday.FlagFor | src/app/components/SessionsToday.jsx:130-163 | low completion exactly below 50%, completed exactly from 80%, a dash in between; the over-executed flag can never be shown |
| SessionsToday.CompletionPct | src/app/components/SessionsToday.jsx:342-344 | a percentage in [0, 100], 0 without exercises, 100 when all are completed, and within half a point of the exact share |
| SessionsToday.GroupByMuscleIsPartition | src/app/components/SessionsToday.jsx:455-460 | the groups are the distinct muscles in order of first appearance, each holding exactly its muscle's exercises in session order |
| SessionsToday.PartitionStep | src/app/components/SessionsToday.jsx:455-460 | grouping one more exercise keeps the groups a partition |
| SessionsToday.NoExercisesOfAbsentMuscle | src/app/components/SessionsToday.jsx:456 | a muscle no exercise has gets no exercises |
| SessionsToday.GroupByMuscleCount | src/app/components/SessionsToday.jsx:455-460 | the group sizes add up to the number of exercises |
| SessionsToday.StatOf | src/app/components/SessionsToday.jsx:463-478 | a group's statistic keeps its muscle and size, counts no more completed than total, and has a rate in [0, 100] |
| SessionsToday.GroupStats | src/app/components/SessionsToday.jsx:463-478 | one statistic per group, in group order |
| SessionsToday.MuscleStats | src/app/components/SessionsToday.jsx:463-479 | a permutation of the groups' statistics, largest group first |
| SessionsToday.MuscleStatsCompletedBounded | src/app/components/SessionsToday.jsx:463-479 | no muscle statistic counts more completed exercises than its group holds |
| SessionsToday.Timeline | src/app/components/SessionsToday.jsx:482-486 | a permutation of the exercises in non-decreasing order of when they were added |
| SessionsToday.HasMotionData | src/app/components/SessionsToday.jsx:452 | true exactly when some exercise has recorded motion folders |
| AttendanceReport.BandOf | src/app/components/attendance/AttendanceChartsCard.jsx:22-25 | 80 and up is excellent, 50 up to 80 partial, below 50 needs work, each exactly |
| AttendanceReport.BandMonotone | src/app/components/attendance/AttendanceChartsCard.jsx:22-25 | a higher completion rate never falls in a lower band |
| AttendanceReport.RankedByRate | src/app/components/attendance/AthleteLeaderboardCard.jsx:67-68 | a permutation of the athletes with the completion rate non-increasing (a missing rate reads as 0) |
| AttendanceReport.TopByRate | src/app/components/attendance/AthleteLeaderboardCard.jsx:67-69 | `min(n, count)` of the athletes, best first, each at least as good as every athlete left out (every athlete of the input's multiset not in the result) |
| Leaderboard.SortedAthletes | src/app/components/attendance/AthleteLeaderboardCard.jsx:65-70 | nothing without athletes; otherwise ten of them, or all when fewer, best rate first, each at least as good as every athlete left out |
| Leaderboard.Rates | src/app/components/attendance/AthleteLeaderboardCard.jsx:75 | one rate per athlete, in order, a missing rate being 0 |
| Leaderboard.Max | src/app/components/attendance/AthleteLeaderboardCard.jsx:78 | an entry of the rates no smaller than any other |
| Leaderboard.Min | src/app/components/attendance/AthleteLeaderboardCard.jsx:79 | an entry of the rates no larger than any other |
| Leaderboard.SumBetween | src/app/components/attendance/AthleteLeaderboardCard.jsx:77 | rates between two bounds add up to between the bounds times the count |
| Leaderboard.SummaryStats | src/app/components/attendance/AthleteLeaderboardCard.jsx:73-81 | zeros without athletes; otherwise the average is the mean rate rounded (within one half of it), and the best and worst are rates of some athlete that bound every rate |
| Leaderboard.MeanWithin | src/app/components/attendance/AthleteLeaderboardCard.jsx:77 | the mean of rates between two bounds lies between the same bounds |
| Leaderboard.SummaryOrdered | src/app/components/attendance/AthleteLeaderboardCard.jsx:76-79 | the rounded mean lies between the rounded worst and rounded best rate |
| Leaderboard.WholeRatesSummaryOrdered | src/app/components/attendance/AthleteLeaderboardCard.jsx:76-79 | with whole-number rates, worst ≤ rounded mean ≤ best |
| Leaderboard.RankStyleOf | src/app/components/attendance/AthleteLeaderboardCard.jsx:13-18 | ranks 1, 2 and 3 get the gold, silver and bronze styles exactly; every other rank the plain one |
| Leaderboard.PerformanceIconOf | src/app/components/attendance/AthleteLeaderboardCard.jsx:20-24 | trending up exactly from 80, steady exactly from 50 up to 80, trending down exactly below 50 |
| Leaderboard.DisplayName | src/app/components/attendance/AthleteLeaderboardCard.jsx:11 | never empty, and the athlete's own name whenever it has one |
| TopPerformers.TopAthletes | src/app/components/attendance/TopPerformersCard.jsx:6-11 | nothing without athletes; otherwise five of them, or all when fewer, best first, each at least as good as every athlete left out |
| TopPerformers.PerformerName | src/app/components/attendance/TopPerformersCard.jsx:27 | never empty: the name, else the athlete name, else a numbered placeholder |
| TopPerformers.BadgeOf | src/app/components/attendance/TopPerformersCard.jsx:30-35 | positions 0, 1 and 2 each have their own badge, exactly, and every later position shares one |
| TopPerformers.RateColourOf | src/app/components/attendance/TopPerformersCard.jsx:42-45 | emerald exactly from 80, amber exactly from 50 up to 80, gray exactly below 50 |
| AttendanceCharts.CountBands | src/app/components/attendance/AttendanceChartsCard.jsx:20-26 | each count is the number of athletes in its band, and the three add up to all athletes |
| AttendanceCharts.DropEmptyKeepsTotal | src/app/components/attendance/AttendanceChartsCard.jsx:28-32 | dropping the empty slices keeps the total of the chart |
| AttendanceCharts.CompletionData | src/app/components/attendance/AttendanceChartsCard.jsx:17-33 | no slice exactly when there are no athletes; otherwise the three named bands with their counts, the empty ones dropped: at most three slices, none empty, totalling the athletes |
| AttendanceCharts.RiskData | src/app/components/attendance/AttendanceChartsCard.jsx:77-93 | no bars without athletes, else the three band counts; every bar is empty exactly when there are no athletes |
| ExecutionAlerts.RecentDates | src/app/components/attendance/ExecutionAlertsCard.jsx:34 | none without a calendar; otherwise the dates of the last seven calendar entries, in order |
| ExecutionAlerts.InactivityAlerts | src/app/components/attendance/ExecutionAlertsCard.jsx:35-46 | only needs-attention alerts |
| ExecutionAlerts.LowCompletionAlerts | src/app/components/attendance/ExecutionAlertsCard.jsx:48-58 | only low-completion alerts |
| ExecutionAlerts.AlertsAppend | src/app/components/attendance/ExecutionAlertsCard.jsx:35-58 | one more athlete adds at most its own alert of each kind, after the alerts of the athletes before it |
| ExecutionAlerts.Alerts | src/app/components/attendance/ExecutionAlertsCard.jsx:31-71 | the two `forEach` loops and the summary give exactly the first six of all alerts |
| ExecutionAlerts.AlertsOrdered | src/app/components/attendance/ExecutionAlertsCard.jsx:31-70 | inactivity alerts come before low-completion alerts, and the top-performer summary can only be last |
| ExecutionAlerts.InactivityAlertsCount | src/app/components/attendance/ExecutionAlertsCard.jsx:35-46 | one inactivity alert per athlete with sessions and none in the last seven calendar dates |
| ExecutionAlerts.LowCompletionAlertsCount | src/app/components/attendance/ExecutionAlertsCard.jsx:48-58 | one low-completion alert per athlete with sessions and a rate below 50 |
| ExecutionAlerts.NoSessionsNoAlerts | src/app/components/attendance/ExecutionAlertsCard.jsx:38-60 | athletes without sessions raise no alert at all |
| SessionOverview.TotalCountBounded | src/app/components/attendance/SessionOverviewCard.jsx:24 | a calendar with no day above `most` sessions totals at most `most` per day |
| SessionOverview.AvgDaily | src/app/components/attendance/SessionOverviewCard.jsx:22-26 | 0 for a missing or empty calendar, else the mean sessions per day within half a tenth |
| SessionOverview.AvgDailyBounded | src/app/components/attendance/SessionOverviewCard.jsx:22-26 | the daily average never exceeds the busiest allowed day |
| SessionOverview.PeakIndex | src/app/components/attendance/SessionOverviewCard.jsx:30 | the `reduce` ends on a position of the calendar |
| SessionOverview.PeakIndexIsLastMaximum | src/app/components/attendance/SessionOverviewCard.jsx:30 | with every count present, the peak has the largest count and no later day ties it (the last maximum wins) |
| SessionOverview.PeakDay | src/app/components/attendance/SessionOverviewCard.jsx:28-35 | no peak exactly for a missing or empty calendar; otherwise an entry of the calendar |
| SessionOverview.PeakDayIsLastMaximum | src/app/components/attendance/SessionOverviewCard.jsx:28-35 | with every count present, the peak is a day with the largest count, and every later day has a smaller one, so of several busiest days the last wins |
| SessionOverview.TotalDays | src/app/components/attendance/SessionOverviewCard.jsx:37-40 | no more active days than calendar days, and none exactly when no day has a session |
| SessionOverview.AvgPerAthlete | src/app/components/attendance/SessionOverviewCard.jsx:42-45 | 0 when either total is missing or 0, else sessions per athlete within half a tenth |
| SessionOverview.SummaryTotals | src/app/components/attendance/SessionOverviewCard.jsx:73-81 | all three totals are 0 without a summary |
| AttendanceHeatmap.CalendarData | src/app/components/attendance/AttendanceHeatmapCard.jsx:11-13 | the report's calendar as given, and nothing without a report or a calendar |
| AttendanceHeatmap.MaxCount | src/app/components/attendance/AttendanceHeatmapCard.jsx:15-17 | at least 1 and at least every count, and either 1 or the count of some day |
| AttendanceHeatmap.ClassForValue | src/app/components/attendance/AttendanceHeatmapCard.jsx:41-48 | empty exactly for a missing cell or no sessions; scale 4 exactly from three quarters of the maximum, scale 3 from a half, scale 2 from a quarter, scale 1 below a quarter |
| AttendanceHeatmap.ClassForValueMonotone | src/app/components/attendance/AttendanceHeatmapCard.jsx:41-48 | a cell with more sessions is never lighter than one with fewer |
| AttendanceHeatmap.BusiestDayDarkest | src/app/components/attendance/AttendanceHeatmapCard.jsx:15-48 | the busiest day with a session is shaded darkest |
| AttendanceHeatmap.OnClick | src/app/components/attendance/AttendanceHeatmapCard.jsx:50 | a click reports the cell's date exactly when the cell has a non-empty date |
| AttendanceHeatmap.TrendData | src/app/components/attendance/AttendanceHeatmapCard.jsx:71-77 | nothing without a calendar; otherwise the last fourteen days, in order, with a missing count read as 0 |
| AttendancePage.ActiveDates | src/app/components/Attendance.jsx:81-83 | the dates of the days with sessions, no more than the calendar has |
| AttendancePage.Hits | src/app/components/Attendance.jsx:88-93 | one entry for each of the 90 days looked at, today first |
| AttendancePage.RunLengthIs | src/app/components/Attendance.jsx:89-94 | a run of equal leading days is measured by where it ends |
| AttendancePage.StreakOf | src/app/components/Attendance.jsx:87-95 | the streak never exceeds the days looked at |
| AttendancePage.StreakZero | src/app/components/Attendance.jsx:86-95 | the streak is 0 exactly when none of the 90 days is active |
| AttendancePage.StreakOfRun | src/app/components/Attendance.jsx:89-94 | after skipping the inactive days up to the first active one, the streak is the length of the run of active days up to the first gap |
| AttendancePage.Streak | src/app/components/Attendance.jsx:79-96 | the loop's count is the streak of the 90-day window and at most 90 |
| AttendancePage.ToFixed0 | src/app/components/Attendance.jsx:103-105 | the nearest whole number: halves rounded up for a non-negative input, down for a negative one |
| AttendancePage.AnalyticsOf | src/app/components/Attendance.jsx:99-110 | no analytics exactly without a report; the average completion is the mean rate rounded by `toFixed(0)` (within one half of it, halves away from zero); the high-risk count is bounded by the athletes, and both numbers are 0 without athletes |
| AttendancePage.LaggingIsNeedsWork | src/app/components/Attendance.jsx:107 | an athlete below 50 is counted exactly when it is in the "Below 50%" band |
| AttendancePage.HighRiskIsNeedsWork | src/app/components/Attendance.jsx:107 | the analytics' high-risk count is the number of athletes rated below 50: the "Below 50%" band of the completion chart |
| AttendancePage.AnalyticsMatchesLeaderboard | src/app/components/Attendance.jsx:103-105 | with rates between 0 and 100 the KPI mean is a percentage and equals the leaderboard's rounded mean |
| AttendancePage.OverviewSummary | src/app/components/Attendance.jsx:135-139 | the overview card gets no summary, so its per-athlete average and its totals are 0 |
| AttendancePage.AttendanceView.constructor | src/app/components/Attendance.jsx:29-31 | no date is selected, no detail is held and nothing is loading |
| AttendancePage.AttendanceView.SelectDate | src/app/components/Attendance.jsx:127 | a heatmap click makes the date the selection and changes nothing else |
| AttendancePage.AttendanceView.CloseDialog | src/app/components/Attendance.jsx:142-148 | closing clears the selection, which closes the dialog, and keeps the rest |
| AttendancePage.AttendanceView.DateEffect | src/app/components/Attendance.jsx:55-76 | without a token or a selection the detail is cleared and nothing is asked; otherwise loading starts for the selected date |
| AttendancePage.AttendanceView.DateFetched | src/app/components/Attendance.jsx:66-73 | an arrived detail replaces the old one, a failed fetch keeps it, and loading stops either way |
| AttendancePage.CloseClearsDetail | src/app/components/Attendance.jsx:55-59 | closing the dialog and running the effect leaves no detail behind |

## Left out

- Network, storage and persistence: `fetch`, Firestore transactions (`runTransaction`, `getDoc`, `setDoc`), Storage and the backend. Each response is an input of the model (an `Option` or an outcome datatype); only what the code does with it is modelled.
- `getWorkoutPlan`, `saveWorkoutPlan`, `deleteWorkoutPlan` and `getGymWorkoutPlans` in src/app/api/workout-api.js: plain reads and writes of the plan document, with no logic beyond the I/O.
- The exercise, user and verification APIs, the muscle and exercise library fetches and the athlete-name fetch: wrappers over services outside this code.
- React's scheduling: effects, `useMemo` caching, `requestAnimationFrame`, timers and promises. Each handler or effect is a method the caller runs in order. Out-of-order responses, the 2-second reset of the planner's save status and the replay modal's close delay as a duration are not modelled.
- Playback.Player: the effect that restarts the animation after a rate change is a separate `Restart` call; `ChangeFps` does not re-run it.
- The clock, time zones and locales. The current moment is a day number or a timestamp parameter. The conversion of a day number to a local civil date (`getFullYear`/`getMonth`/`getDate`) and to a UTC `YYYY-MM-DD` string (`toISOString().split("T")[0]`) is a function parameter. `toLocaleDateString` labels (week day names, peak-day and trend dates) are not modelled.
- Dates.Weekday and WorkoutApi.GetWeekDates: a week date carries its civil date, without the `dayName`/`dayShort` strings.
- The "today" and "previous/next day" buttons of the sessions page, and `goToCurrentWeek` of the planner: they only set a date from the clock.
- `generateFrameUrls` in src/app/hooks/useSmplMeshLoader.js: deprecated and unused by the replay pipeline. `getFirebaseStorageUrl`: URL encoding by a library call.
- Decoding a frame (`Float32Array` over the response bytes): a frame is an opaque sequence of numbers, of which only the length is inspected.
- 3D rendering: Three.js geometry, normals, bounding spheres, lights, the camera, orbit controls and the idle rotation about Y. FaceCache.SmplMesh keeps only which attributes are set and the constant X rotation.
- `calculateBMI` and the BMI comparison of `getHealthRisk`: floating-point division compared through a `toFixed` string. The BMI is an input of DataUtils.HealthRisk.
- IEEE-754 doubles: rates and percentages are exact reals, so rounding errors of the platform's arithmetic are not modelled. `toFixed(1)` and `toFixed(0)` give integer counts of tenths or units rather than strings.
- `charCodeAt` is a character's code point, so the hash is exact only for characters of the Basic Multilingual Plane. `toLowerCase` maps only ASCII letters.
- Leaderboard.SummaryOrdered: the source shows `low ≤ avg ≤ top` with `avg` rounded; this holds exactly only for whole-number rates (Leaderboard.WholeRatesSummaryOrdered), so for other rates the bound is stated between the rounded minimum and maximum.
- Sorting: `Array.prototype.sort` is stable. The model sorts stably by insertion, but the contracts state only order and permutation, not stability.
- `Object.entries` and `Object.values` key order: legacy plan days are lists of keyed fields, taken in the order stored.
- SessionsToday.Timeline: an `addedAt` of `{ seconds: 0 }` falls back to the object itself in the source, which compares as `NaN`; the model takes its key as 0.
- Planner: a legacy object day edited by the local update handlers is left unchanged, where the source's `.map` over a non-array would throw.
- Text and colour classes: risk labels, alert messages, badge and rate colours are enumerations rather than strings.
- Toasts, console output and error messages shown to the user, apart from the error values the hooks keep in state.
- AttendanceCharts.RiskData: with no athletes the code gives no bars rather than three empty ones, and the model follows the code.
- The attendance page's refetch when the range changes: the attendance report is an input.
- Text.ParseInt: skips only spaces, tabs and newlines before the digits and reads decimal only. JavaScript's `parseInt` also skips other white space and reads a `0x` prefix as hexadecimal. The planner's form fields are number inputs, so these cases do not arise there.
- FrameSource.FrameFilenames.Complete: a successful listing whose `data` field is missing throws in the source and so sets the error. The listing input cannot express that response.
- FaceCache.ViewerState: an empty error string counts as an error, where the source's `error || facesError` would skip it. The viewer's only caller never passes an error.
- WorkoutApi.PlanDocument.ClearWorkoutByDate: models the transaction body, which deletes the date's key. The document is written back with `set(..., { merge: true })`, and how the stored document merges that write is left to the database.
- SessionsToday.EndpointFor: dates are modelled with four-digit years (1000 to 9999), the range `YYYY-MM-DD` formatting round-trips in. The source formats any `Date`, so the endpoint for an earlier or later year is not modelled.
