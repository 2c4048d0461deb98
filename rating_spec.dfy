/**
 The daily activity rating, stated as functions of the day's activity list.

 Three considerations are scored and summed: the number of activities
 (volume), the intensities of the exercises (only from five activities
 on), and the number of distinct tracked exercise types (variety).  The
 total is then classified as none, low, medium or high.  An activity whose
 exercise reference did not resolve makes the whole request fail.
 */
module RatingSpec {
  import opened Wrappers
  import opened Exercises

  datatype Rating = NoRating | LowRating | MediumRating | HighRating

  /** The outcome of one rating request: the JSON body, or the server error. */
  datatype Response = Rated(points: nat, rating: Rating) | ServerError

  /** The rating as it is written in the JSON response. */
  function RatingName(r: Rating): (name: string)
    ensures name in {"none", "low", "medium", "high"}
  {
    match r
    case NoRating => "none"
    case LowRating => "low"
    case MediumRating => "medium"
    case HighRating => "high"
  }

  /** The order of the four ratings, none lowest. */
  function Rank(r: Rating): nat
  {
    match r
    case NoRating => 0
    case LowRating => 1
    case MediumRating => 2
    case HighRating => 3
  }

  /** The intensities whose tallies start at zero. */
  const Seeded: set<Intensity> := {Low, Medium, High}

  /** The exercise types whose presence counts towards variety; trekking is not among them. */
  const Tracked: set<ExerciseType> := {Weight, Cardio, Sport, Yoga, BodyWeight}

  predicate AllResolved(s: seq<Activity>)
  {
    forall k :: 0 <= k < |s| ==> s[k].exercise.Some?
  }

  predicate HasIntensity(a: Activity, i: Intensity)
  {
    a.exercise.Some? && a.exercise.value.intensity == i
  }

  predicate HasType(a: Activity, t: ExerciseType)
  {
    a.exercise.Some? && a.exercise.value.exerciseType == t
  }

  /** How many of the first `n` activities of `s` have a resolved exercise of intensity `i`. */
  function CountIntensityUpTo(s: seq<Activity>, n: nat, i: Intensity): (c: nat)
    requires n <= |s|
    ensures c <= n
  {
    if n == 0 then 0
    else CountIntensityUpTo(s, n - 1, i) + (if HasIntensity(s[n - 1], i) then 1 else 0)
  }

  /** How many activities of `s` have a resolved exercise of intensity `i`. */
  function CountIntensity(s: seq<Activity>, i: Intensity): (c: nat)
    ensures c <= |s|
  {
    CountIntensityUpTo(s, |s|, i)
  }

  /** The tracked types among the resolved exercises of the first `n` activities of `s`. */
  function TrackedTypesUpTo(s: seq<Activity>, n: nat): (ts: set<ExerciseType>)
    requires n <= |s|
    ensures ts <= Tracked
  {
    if n == 0 then {}
    else
      var a := s[n - 1];
      if a.exercise.Some? && a.exercise.value.exerciseType in Tracked
      then TrackedTypesUpTo(s, n - 1) + {a.exercise.value.exerciseType}
      else TrackedTypesUpTo(s, n - 1)
  }

  /** Meeting one more resolved activity adds its type exactly when it is tracked and new. */
  lemma TrackedTypesStep(s: seq<Activity>, k: nat)
    requires k < |s| && s[k].exercise.Some?
    ensures var t := s[k].exercise.value.exerciseType;
      var seen := TrackedTypesUpTo(s, k);
      TrackedTypesUpTo(s, k + 1) == if t in Tracked && t !in seen then seen + {t} else seen
  {
    var t := s[k].exercise.value.exerciseType;
    if t in TrackedTypesUpTo(s, k) {
      assert TrackedTypesUpTo(s, k) + {t} == TrackedTypesUpTo(s, k);
    }
  }

  /** The tracked types among the resolved exercises of `s`. */
  function TrackedTypesIn(s: seq<Activity>): (ts: set<ExerciseType>)
    ensures ts <= Tracked
  {
    TrackedTypesUpTo(s, |s|)
  }

  /** A type is among the first `n` tracked types exactly when it is tracked and one of those activities has it. */
  lemma {:induction false} TrackedTypesUpToMembership(s: seq<Activity>, n: nat, t: ExerciseType)
    requires n <= |s|
    ensures t in TrackedTypesUpTo(s, n) <==> t in Tracked && exists k :: 0 <= k < n && HasType(s[k], t)
  {
    if n > 0 {
      TrackedTypesUpToMembership(s, n - 1, t);
      if exists k :: 0 <= k < n && HasType(s[k], t) {
        var k :| 0 <= k < n && HasType(s[k], t);
        if k < n - 1 {
          assert exists k' :: 0 <= k' < n - 1 && HasType(s[k'], t);
        }
      }
    }
  }

  /** A type is in TrackedTypesIn(s) exactly when it is tracked and some activity of `s` has it. */
  lemma TrackedTypesInMembership(s: seq<Activity>, t: ExerciseType)
    ensures t in TrackedTypesIn(s) <==> t in Tracked && exists k :: 0 <= k < |s| && HasType(s[k], t)
  {
    TrackedTypesUpToMembership(s, |s|, t);
  }

  /** The number of distinct tracked types performed. */
  function VarietyCount(s: seq<Activity>): (v: nat)
    ensures v <= 5
  {
    SubsetCardinality(TrackedTypesIn(s), Tracked);
    assert |Tracked| == 5;
    |TrackedTypesIn(s)|
  }

  lemma {:induction false} SubsetCardinality<T>(a: set<T>, b: set<T>)
    requires a <= b
    ensures |a| <= |b|
  {
    assert b == a + (b - a);
  }

  /** Points for the number of activities. */
  function VolumePoints(n: nat): (p: nat)
    ensures p <= 40 && p % 10 == 0
    ensures p == 0 <==> n == 0
  {
    if n == 0 then 0
    else if 1 <= n <= 4 then 10
    else if 5 <= n <= 8 then 20
    else if 9 <= n <= 12 then 30
    else 40
  }

  /** Points for intensity, from the number of activities and the high and medium tallies. */
  function IntensityPoints(n: nat, high: nat, medium: nat): (p: nat)
    ensures p <= 30 && p % 10 == 0
    ensures n < 5 ==> p == 0
    ensures n >= 5 ==> p >= 10
    ensures p == 30 ==> high >= 10
    ensures p >= 20 ==> high + medium >= 10
  {
    if n < 5 then 0
    else if high >= 10 then 30
    else if medium + high >= 10 then 20
    else 10
  }

  /** Points for the number of distinct tracked types. */
  function VarietyPoints(v: nat): (p: nat)
    ensures p <= 30 && p % 5 == 0
    ensures p == 0 <==> v == 0
  {
    if v == 0 then 0
    else if v == 1 then 5
    else if v == 2 then 10
    else if v == 3 then 20
    else 30
  }

  /** The classification of a point total. */
  function RatingOf(points: nat): (r: Rating)
    ensures r == NoRating <==> points == 0
    ensures r == LowRating <==> 1 <= points < 30
    ensures r == MediumRating <==> 30 <= points < 75
    ensures r == HighRating <==> points >= 75
  {
    if points == 0 then NoRating
    else if 1 <= points < 30 then LowRating
    else if 30 <= points < 75 then MediumRating
    else HighRating
  }

  /** Points for intensity over the day's activities. */
  function IntensityScore(s: seq<Activity>): (r: nat)
    ensures r <= 30 && r % 10 == 0
    ensures |s| < 5 <==> r == 0
    ensures r == 30 ==> CountIntensity(s, High) >= 10
  {
    IntensityPoints(|s|, CountIntensity(s, High), CountIntensity(s, Medium))
  }

  /** The sum of the three considerations. */
  function TotalPoints(s: seq<Activity>): (p: nat)
    ensures p <= 100 && p % 5 == 0
    ensures p == 0 <==> s == []
  {
    var volume, intensity, variety := VolumePoints(|s|), IntensityScore(s), VarietyPoints(VarietyCount(s));
    MultiplesOfFive(volume, intensity, variety);
    volume + intensity + variety
  }

  lemma MultiplesOfFive(a: nat, b: nat, c: nat)
    requires a % 5 == 0 && b % 5 == 0 && c % 5 == 0
    ensures (a + b + c) % 5 == 0
  {
    assert a + b + c == 5 * (a / 5 + b / 5 + c / 5);
  }

  /** The response to a rating request for the day's activities `s`. */
  function Rate(s: seq<Activity>): (r: Response)
    ensures r.ServerError? <==> exists k :: 0 <= k < |s| && s[k].exercise.None?
    ensures r.Rated? ==> r.points <= 100 && r.points % 5 == 0
    ensures r.Rated? ==> (r.points == 0 <==> s == [])
    ensures r.Rated? ==> r.rating == RatingOf(r.points)
  {
    if AllResolved(s) then Rated(TotalPoints(s), RatingOf(TotalPoints(s)))
    else ServerError
  }
}
