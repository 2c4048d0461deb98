/**
 The handler of the "today's activity rating" request, step by step as it
 runs once the day's activities have been fetched: a points accumulator,
 a tally of intensities kept in a key/value map seeded with the three known
 intensities, and a map of the five tracked types with a counter of the
 distinct ones seen.  Dereferencing an activity whose exercise did not
 resolve raises an error, which the handler turns into a server error.
 */
module Rating {
  import opened Wrappers
  import opened Exercises
  import opened RatingSpec

  /**
   A value held in the intensity map.  Reading a key that was never set
   yields `undefined`, and `undefined + 1` is NaN, so an intensity outside
   the seeded three is stored as NaN, and stays NaN.
   */
  datatype Tally = Num(n: nat) | NaN

  function Get<K>(m: map<K, Tally>, key: K): Option<Tally>
  {
    if key in m then Some(m[key]) else None
  }

  /** `get(key) + 1`: a number for a key holding a number, NaN for a missing key or NaN. */
  function Increment(v: Option<Tally>): Tally
  {
    match v
    case Some(Num(n)) => Num(n + 1)
    case _ => NaN
  }

  /** Numeric addition, where NaN absorbs. */
  function Plus(a: Tally, b: Tally): Tally
  {
    if a.Num? && b.Num? then Num(a.n + b.n) else NaN
  }

  /** `v >= k`, which is false for NaN. */
  predicate AtLeast(v: Tally, k: nat)
  {
    v.Num? && v.n >= k
  }

  /** The map of tracked types after the variety pass, with the number of distinct types seen. */
  datatype TypeTally = TypeTally(distinct: nat, seen: map<ExerciseType, nat>)

  /**
   The intensity pass: tallies every activity's intensity.  Fails, as the
   dereference does, on the first activity whose exercise is missing.
   */
  method TallyIntensities(activities: seq<Activity>) returns (r: Option<map<Intensity, Tally>>)
    ensures r.None? <==> !AllResolved(activities)
    ensures r.Some? ==> forall i :: i in r.value <==> i in Seeded || CountIntensity(activities, i) > 0
    ensures r.Some? ==> forall i :: i in Seeded ==> r.value[i] == Num(CountIntensity(activities, i))
    ensures r.Some? ==> forall i :: i in r.value && i !in Seeded ==> r.value[i] == NaN
  {
    var intensityMap := map[Low := Num(0), Medium := Num(0), High := Num(0)];
    var k := 0;
    while k < |activities|
      invariant 0 <= k <= |activities|
      invariant forall j :: 0 <= j < k ==> activities[j].exercise.Some?
      invariant TalliesOf(intensityMap, activities, k)
    {
      if activities[k].exercise.None? {
        return None;
      }
      var exerciseIntensity := activities[k].exercise.value.intensity;
      intensityMap := intensityMap[exerciseIntensity := Increment(Get(intensityMap, exerciseIntensity))];
      k := k + 1;
    }
    return Some(intensityMap);
  }

  /**
   The intensity map after tallying the first `n` activities of `s`: the
   seeded intensities hold their counts, any other intensity met is a key
   holding NaN, and nothing else is a key.
   */
  ghost predicate TalliesOf(m: map<Intensity, Tally>, s: seq<Activity>, n: nat)
    requires n <= |s|
  {
    && (forall i :: i in m <==> i in Seeded || CountIntensityUpTo(s, n, i) > 0)
    && (forall i :: i in Seeded ==> m[i] == Num(CountIntensityUpTo(s, n, i)))
    && (forall i :: i in m && i !in Seeded ==> m[i] == NaN)
  }

  /**
   The variety pass: counts each tracked type the first time it is met.
   An untracked type is not a key of the map, so its lookup is never 0.
   Fails on the first activity whose exercise is missing.
   */
  method TallyTypes(activities: seq<Activity>) returns (r: Option<TypeTally>)
    ensures r.None? <==> !AllResolved(activities)
    ensures r.Some? ==> MarksSeen(r.value.seen, TrackedTypesIn(activities))
    ensures r.Some? ==> r.value.distinct == VarietyCount(activities)
  {
    var exerciseTypeMap := map[Weight := 0, Cardio := 0, Sport := 0, Yoga := 0, BodyWeight := 0];
    var numberOfTypesOfActivities := 0;
    var k := 0;
    while k < |activities|
      invariant 0 <= k <= |activities|
      invariant forall j :: 0 <= j < k ==> activities[j].exercise.Some?
      invariant MarksSeen(exerciseTypeMap, TrackedTypesUpTo(activities, k))
      invariant numberOfTypesOfActivities == |TrackedTypesUpTo(activities, k)|
    {
      if activities[k].exercise.None? {
        return None;
      }
      var exerciseType := activities[k].exercise.value.exerciseType;
      TrackedTypesStep(activities, k);
      MarksStep(exerciseTypeMap, TrackedTypesUpTo(activities, k), exerciseType);
      if exerciseType in exerciseTypeMap && exerciseTypeMap[exerciseType] == 0 {
        numberOfTypesOfActivities := numberOfTypesOfActivities + 1;
        exerciseTypeMap := exerciseTypeMap[exerciseType := exerciseTypeMap[exerciseType] + 1];
      }
      k := k + 1;
    }
    return Some(TypeTally(numberOfTypesOfActivities, exerciseTypeMap));
  }

  /**
   The type map once the types in `seen` have been met: its keys are the
   tracked types, each at 1 if seen and at 0 if not.
   */
  ghost predicate MarksSeen(m: map<ExerciseType, nat>, seen: set<ExerciseType>)
  {
    && (forall t :: t in m <==> t in Tracked)
    && (forall t :: t in m ==> m[t] == if t in seen then 1 else 0)
  }

  /**
   The lookup finds 0 exactly for a tracked type not yet seen, and setting
   that entry to 1 marks the type as seen.
   */
  lemma MarksStep(m: map<ExerciseType, nat>, seen: set<ExerciseType>, t: ExerciseType)
    requires MarksSeen(m, seen)
    ensures (t in m && m[t] == 0) <==> (t in Tracked && t !in seen)
    ensures t in Tracked && t !in seen ==> MarksSeen(m[t := m[t] + 1], seen + {t})
  {
  }

  /** The request handler, from the fetched list of the day's activities to the response. */
  method RateToday(activities: seq<Activity>) returns (response: Response)
    ensures response == Rate(activities)
  {
    var points: nat := 0;

    // Consideration 1: the number of activities.
    var numberOfActivities := |activities|;
    if numberOfActivities == 0 {
      points := points + 0;
    } else if 1 <= numberOfActivities <= 4 {
      points := points + 10;
    } else if 5 <= numberOfActivities <= 8 {
      points := points + 20;
    } else if 9 <= numberOfActivities <= 12 {
      points := points + 30;
    } else {
      points := points + 40;
    }
    assert points == VolumePoints(numberOfActivities);

    // Consideration 2: intensity, from five activities on.
    if numberOfActivities >= 5 {
      var tallied := TallyIntensities(activities);
      if tallied.None? {
        return ServerError;
      }
      var intensityMap := tallied.value;
      if AtLeast(intensityMap[High], 10) {
        points := points + 30;
      } else if AtLeast(Plus(intensityMap[Medium], intensityMap[High]), 10) {
        points := points + 20;
      } else {
        points := points + 10;
      }
    }
    assert points == VolumePoints(numberOfActivities) + IntensityScore(activities);

    // Consideration 3: variety of tracked types.
    var typed := TallyTypes(activities);
    if typed.None? {
      return ServerError;
    }
    var numberOfTypesOfActivities := typed.value.distinct;
    if numberOfTypesOfActivities == 1 {
      points := points + 5;
    } else if numberOfTypesOfActivities == 2 {
      points := points + 10;
    } else if numberOfTypesOfActivities == 3 {
      points := points + 20;
    } else if numberOfTypesOfActivities >= 4 {
      points := points + 30;
    }
    assert points == TotalPoints(activities);

    var rating;
    if points == 0 {
      rating := NoRating;
    } else if 1 <= points < 30 {
      rating := LowRating;
    } else if 30 <= points < 75 {
      rating := MediumRating;
    } else {
      rating := HighRating;
    }
    response := Rated(points, rating);
  }
}
