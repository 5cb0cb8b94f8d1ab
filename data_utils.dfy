/**
 * The dashboard's derived athlete values: a deterministic 32-bit string hash, the mock
 * scores and trends drawn from it, the health-risk label, the team readiness and load
 * balance percentages, the intensity of a session and the risk icon.
 *
 * Numbers that the source divides by ten (the form and consistency scores) are kept as
 * whole tenths. The body-mass index is an input: its computation is not modelled.
 */
module DataUtils {
  import opened Wrappers
  import opened Numeric
  import opened Seqs

  const TwoTo32: int := 0x1_0000_0000
  const TwoTo31: int := 0x8000_0000

  /** `x | 0`: the signed 32-bit integer congruent to `x` modulo 2^32. */
  function ToInt32(x: int): (r: int)
    ensures -TwoTo31 <= r < TwoTo31
    ensures (x - r) % TwoTo32 == 0
  {
    var m := x % TwoTo32;
    if m >= TwoTo31 then m - TwoTo32 else m
  }

  /** Two numbers congruent modulo 2^32 have the same signed 32-bit value. */
  lemma ToInt32Congruent(x: int, y: int)
    requires (x - y) % TwoTo32 == 0
    ensures ToInt32(x) == ToInt32(y)
  {
    var q := (x - y) / TwoTo32;
    assert x == y + q * TwoTo32;
    assert x % TwoTo32 == y % TwoTo32 by {
      ModShift(y, q);
    }
  }

  lemma ModShift(y: int, q: int)
    ensures (y + q * TwoTo32) % TwoTo32 == y % TwoTo32
  {
    var a := y / TwoTo32;
    var b := y % TwoTo32;
    assert y + q * TwoTo32 == (a + q) * TwoTo32 + b;
  }

  /** One step of the loop: `hash = ((hash << 5) - hash) + code; hash |= 0`. */
  function HashStep(hash: int, code: int): int {
    ToInt32(ToInt32(hash * 32) - hash + code)
  }

  /** The step multiplies by 31 and adds the code, in 32-bit arithmetic. */
  lemma HashStepIsMultiplyAdd(hash: int, code: int)
    ensures HashStep(hash, code) == ToInt32(31 * hash + code)
  {
    var s := ToInt32(hash * 32);
    assert (hash * 32 - s) % TwoTo32 == 0;
    assert (s - hash + code) - (31 * hash + code) == -(hash * 32 - s);
    ToInt32Congruent(s - hash + code, 31 * hash + code);
  }

  /** The hash of a string before `Math.abs`: the steps over its character codes, from 0. */
  function HashFold(s: string): (h: int)
    ensures -TwoTo31 <= h < TwoTo31
  {
    if s == [] then 0 else HashStep(HashFold(s[..|s| - 1]), s[|s| - 1] as int)
  }

  /** The polynomial hash `sum of code[i] * 31^(n-1-i)`, without any wrap-around. */
  function PolynomialHash(s: string): int {
    if s == [] then 0 else 31 * PolynomialHash(s[..|s| - 1]) + s[|s| - 1] as int
  }

  /** The loop computes the polynomial hash reduced to a signed 32-bit integer. */
  lemma {:induction false} HashFoldIsPolynomial(s: string)
    ensures HashFold(s) == ToInt32(PolynomialHash(s))
  {
    if s != [] {
      var init := s[..|s| - 1];
      var c := s[|s| - 1] as int;
      HashFoldIsPolynomial(init);
      StepKeepsCongruence(HashFold(init), PolynomialHash(init), c);
    }
  }

  /** A step from the reduced value lands where the step from the unreduced one reduces to. */
  lemma StepKeepsCongruence(a: int, b: int, c: int)
    requires a == ToInt32(b)
    ensures HashStep(a, c) == ToInt32(31 * b + c)
  {
    HashStepIsMultiplyAdd(a, c);
    ScaledCongruence(a, b, c);
    ToInt32Congruent(31 * a + c, 31 * b + c);
  }

  lemma ScaledCongruence(a: int, b: int, c: int)
    requires (a - b) % TwoTo32 == 0
    ensures ((31 * a + c) - (31 * b + c)) % TwoTo32 == 0
  {
    var q := (a - b) / TwoTo32;
    assert a - b == q * TwoTo32;
    assert (31 * a + c) - (31 * b + c) == 0 + (31 * q) * TwoTo32;
    ModShift(0, 31 * q);
  }

  function Abs(x: int): nat {
    if x < 0 then -x else x
  }

  /** `hashCode(str)`: never negative, and at most 2^31 (the absolute value of the least 32-bit integer). */
  method HashCode(str: string) returns (h: nat)
    ensures h == Abs(HashFold(str))
    ensures h <= TwoTo31
  {
    var hash := 0;
    var i := 0;
    while i < |str|
      invariant 0 <= i <= |str|
      invariant hash == HashFold(str[..i])
    {
      assert str[..i + 1][..i] == str[..i];
      hash := ToInt32(ToInt32(hash * 32) - hash + str[i] as int);
      i := i + 1;
    }
    assert str[..i] == str;
    h := Abs(hash);
  }

  /** The hash as the score functions use it. */
  function Hash(s: string): (h: nat)
    ensures h <= TwoTo31
  {
    Abs(HashFold(s))
  }

  /** The fields of an athlete the scores read; `None` for missing or empty. */
  datatype Athlete = Athlete(id: Option<string>, email: Option<string>, hasHealthIssues: bool, bmi: Option<real>)

  /** `athlete.id || athlete.email || ''`. */
  function Key(a: Athlete): string {
    if a.id.Some? && a.id.value != "" then a.id.value
    else if a.email.Some? && a.email.value != "" then a.email.value
    else ""
  }

  function IdOrEmpty(a: Athlete): string {
    if a.id.Some? then a.id.value else ""
  }

  /** `getFormScore` in tenths: `(h % 41) + 52`, from 5.2 to 9.2. */
  function FormScoreTenths(a: Athlete): (t: int)
    ensures 52 <= t <= 92
  {
    Hash(Key(a)) % 41 + 52
  }

  datatype Trend = Up | Down

  /** `getFormTrend`: down exactly when the hash of the id and "trend" is a multiple of 3. */
  function FormTrend(a: Athlete): (t: Trend)
    ensures t == Down <==> Hash(IdOrEmpty(a) + "trend") % 3 == 0
  {
    if Hash(IdOrEmpty(a) + "trend") % 3 == 0 then Down else Up
  }

  /** `getConsistencyScore` in tenths: `(h % 46) + 48`, from 4.8 to 9.3. */
  function ConsistencyScoreTenths(a: Athlete): (t: int)
    ensures 48 <= t <= 93
  {
    Hash(Key(a) + "c") % 46 + 48
  }

  /** `getConsistencyTrend`: down exactly when the hash of the id and "ctrend" is a multiple of 4. */
  function ConsistencyTrend(a: Athlete): (t: Trend)
    ensures t == Down <==> Hash(IdOrEmpty(a) + "ctrend") % 4 == 0
  {
    if Hash(IdOrEmpty(a) + "ctrend") % 4 == 0 then Down else Up
  }

  /** `getAttendance7d`: a percentage from 43 to 100. */
  function Attendance7d(a: Athlete): (p: int)
    ensures 43 <= p <= 100
  {
    43 + Hash(Key(a) + "a7") % 58
  }

  /** `getAttendance30d`: a percentage from 62 to 100. */
  function Attendance30d(a: Athlete): (p: int)
    ensures 62 <= p <= 100
  {
    62 + Hash(Key(a) + "a30") % 39
  }

  /** An athlete with neither id nor email hashes the empty key to 0: form 5.2. */
  lemma AnonymousAthleteForm(a: Athlete)
    requires (a.id.None? || a.id.value == "") && (a.email.None? || a.email.value == "")
    ensures FormScoreTenths(a) == 52
  {
    assert Key(a) == "";
    assert HashFold("") == 0;
  }

  datatype RiskLevel = Low | Medium | High

  /** `getHealthRisk`: at risk with health issues; otherwise ready without a BMI, monitored outside 18.5 to 30. */
  function HealthRisk(a: Athlete): (r: RiskLevel)
    ensures a.hasHealthIssues ==> r == High
    ensures !a.hasHealthIssues && a.bmi.None? ==> r == Low
    ensures r == Medium <==> !a.hasHealthIssues && a.bmi.Some? && (a.bmi.value < 18.5 || a.bmi.value > 30.0)
    ensures r == High <==> a.hasHealthIssues
  {
    if a.hasHealthIssues then High
    else if a.bmi.None? then Low
    else if a.bmi.value < 18.5 || a.bmi.value > 30.0 then Medium
    else Low
  }

  function RiskLabel(r: RiskLevel): string {
    match r
    case High => "At Risk"
    case Medium => "Monitor"
    case Low => "Ready"
  }

  predicate IsReady(a: Athlete) {
    HealthRisk(a) == Low
  }

  /** `getTeamReadinessScore`: 0 for no athletes, else the rounded percentage of ready athletes. */
  function TeamReadinessScore(athletes: seq<Athlete>): (score: int)
    ensures athletes == [] ==> score == 0
    ensures 0 <= score <= 100
    ensures athletes != [] && CountWhere(athletes, IsReady) == |athletes| ==> score == 100
    ensures athletes != [] && CountWhere(athletes, IsReady) == 0 ==> score == 0
    ensures athletes != [] ==>
              score as real - 0.5 <= CountWhere(athletes, IsReady) as real / |athletes| as real * 100.0 < score as real + 0.5
  {
    if |athletes| == 0 then 0
    else RoundedPercent(CountWhere(athletes, IsReady), |athletes|)
  }

  /** A team with health issues throughout has readiness 0. */
  lemma AllAtRiskNotReady(athletes: seq<Athlete>)
    requires forall k :: 0 <= k < |athletes| ==> athletes[k].hasHealthIssues
    ensures TeamReadinessScore(athletes) == 0
  {
    CountZero(athletes, IsReady);
  }

  /** A session as the scores read it: its exercises' completion flags, `None` when it has no list. */
  datatype Session = Session(exercises: Option<seq<bool>>)

  function IsTrue(b: bool): bool {
    b
  }

  function SessionTotal(s: Session): nat {
    if s.exercises.Some? then |s.exercises.value| else 0
  }

  function SessionCompleted(s: Session): (n: nat)
    ensures n <= SessionTotal(s)
  {
    if s.exercises.Some? then CountWhere(s.exercises.value, IsTrue) else 0
  }

  function TotalExercises(sessions: seq<Session>): nat {
    if sessions == [] then 0 else SessionTotal(sessions[0]) + TotalExercises(sessions[1..])
  }

  function CompletedExercises(sessions: seq<Session>): (n: nat)
    ensures n <= TotalExercises(sessions)
  {
    if sessions == [] then 0 else SessionCompleted(sessions[0]) + CompletedExercises(sessions[1..])
  }

  datatype LoadStatus = Ok | Warning

  datatype LoadBalance = LoadBalance(score: int, status: LoadStatus)

  /**
   * `getLoadBalanceScore`: 100 and OK without sessions; 100 without exercises; otherwise
   * the rounded percentage of completed exercises. The status is OK exactly from 70 up.
   */
  function LoadBalanceScore(sessions: seq<Session>): (r: LoadBalance)
    ensures sessions == [] ==> r == LoadBalance(100, Ok)
    ensures TotalExercises(sessions) == 0 ==> r.score == 100
    ensures 0 <= r.score <= 100
    ensures r.status == Ok <==> r.score >= 70
    ensures TotalExercises(sessions) > 0 ==> r.score == RoundedPercent(CompletedExercises(sessions), TotalExercises(sessions))
  {
    if |sessions| == 0 then LoadBalance(100, Ok)
    else
      var total := TotalExercises(sessions);
      var score := if total > 0 then RoundedPercent(CompletedExercises(sessions), total) else 100;
      LoadBalance(score, if score >= 70 then Ok else Warning)
  }

  datatype Intensity = VeryHigh | HighIntensity | MediumIntensity | LowIntensity

  /**
   * `getSessionIntensity`: the completion percentage against the exercise count (1 when
   * the list is missing or empty), in bands from 80, 60 and 40.
   */
  function SessionIntensity(s: Session): (r: Intensity)
    ensures var pct := SessionCompleted(s) as real / (if SessionTotal(s) > 0 then SessionTotal(s) else 1) as real * 100.0;
            (r == VeryHigh <==> pct >= 80.0) &&
            (r == HighIntensity <==> 60.0 <= pct < 80.0) &&
            (r == MediumIntensity <==> 40.0 <= pct < 60.0) &&
            (r == LowIntensity <==> pct < 40.0)
  {
    var total := if SessionTotal(s) > 0 then SessionTotal(s) else 1;
    var pct := SessionCompleted(s) as real / total as real * 100.0;
    if pct >= 80.0 then VeryHigh
    else if pct >= 60.0 then HighIntensity
    else if pct >= 40.0 then MediumIntensity
    else LowIntensity
  }

  /** A session without exercises is of low intensity. */
  lemma EmptySessionIsLow(s: Session)
    requires s.exercises.None? || s.exercises.value == []
    ensures SessionIntensity(s) == LowIntensity
  {
  }

  datatype RiskIcon = Critical | HighIcon | MediumIcon | AttendanceIcon | NoIcon

  /**
   * `getRiskIcon`: critical for a high risk with a form below 6, then high, then medium,
   * then a 7-day attendance below 60, else none.
   */
  function RiskIconOf(a: Athlete): (r: RiskIcon)
    ensures r == Critical <==> HealthRisk(a) == High && FormScoreTenths(a) < 60
    ensures r == HighIcon <==> HealthRisk(a) == High && FormScoreTenths(a) >= 60
    ensures r == MediumIcon <==> HealthRisk(a) == Medium
    ensures r == AttendanceIcon <==> HealthRisk(a) == Low && Attendance7d(a) < 60
    ensures r == NoIcon <==> HealthRisk(a) == Low && Attendance7d(a) >= 60
  {
    if HealthRisk(a) == High && FormScoreTenths(a) < 60 then Critical
    else if HealthRisk(a) == High then HighIcon
    else if HealthRisk(a) == Medium then MediumIcon
    else if Attendance7d(a) < 60 then AttendanceIcon
    else NoIcon
  }

  /** Only athletes with health issues get a critical or high icon. */
  lemma HighIconsNeedHealthIssues(a: Athlete)
    ensures RiskIconOf(a) in {Critical, HighIcon} <==> a.hasHealthIssues
  {
  }
}
