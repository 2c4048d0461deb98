/**
 Properties of the daily activity rating: the point tables are monotone,
 only the high and medium tallies and the tracked types matter, and the
 response depends on the day's activities as a multiset, not on the order
 in which they were fetched.
 */
module RatingProperties {
  import opened Wrappers
  import opened Exercises
  import opened RatingSpec

  lemma VolumePointsMonotone(m: nat, n: nat)
    requires m <= n
    ensures VolumePoints(m) <= VolumePoints(n)
  {
  }

  lemma VarietyPointsMonotone(v: nat, w: nat)
    requires v <= w
    ensures VarietyPoints(v) <= VarietyPoints(w)
  {
  }

  /** More activities, or higher high or medium tallies, never earn fewer intensity points. */
  lemma IntensityPointsMonotone(n: nat, high: nat, medium: nat, n': nat, high': nat, medium': nat)
    requires n <= n' && high <= high' && medium <= medium'
    ensures IntensityPoints(n, high, medium) <= IntensityPoints(n', high', medium')
  {
  }

  /** Distinct ratings are written as distinct strings. */
  lemma RatingNameInjective(r: Rating, q: Rating)
    ensures RatingName(r) == RatingName(q) <==> r == q
  {
  }

  lemma RatingMonotone(p: nat, q: nat)
    requires p <= q
    ensures Rank(RatingOf(p)) <= Rank(RatingOf(q))
  {
  }

  /** The top intensity score needs at least ten activities, ten of them high. */
  lemma TopIntensityNeedsTenActivities(s: seq<Activity>)
    requires IntensityScore(s) == 30
    ensures |s| >= 10 && CountIntensity(s, High) >= 10
  {
  }

  /** An empty day is rated zero points, "none". */
  lemma EmptyDay()
    ensures Rate([]) == Rated(0, NoRating)
  {
  }

  /** The rating is "none" exactly for a day without activities. */
  lemma NoRatingOnlyForEmptyDay(s: seq<Activity>)
    requires Rate(s).Rated?
    ensures Rate(s).rating == NoRating <==> s == []
  {
  }

  /** Tallies of two lists that agree on their first `n` activities agree up to `n`. */
  lemma {:induction false} CountIntensityUpToAgree(s: seq<Activity>, t: seq<Activity>, n: nat, i: Intensity)
    requires n <= |s| && n <= |t|
    requires forall j :: 0 <= j < n ==> s[j] == t[j]
    ensures CountIntensityUpTo(s, n, i) == CountIntensityUpTo(t, n, i)
  {
    if n > 0 {
      CountIntensityUpToAgree(s, t, n - 1, i);
    }
  }

  /** The tally of the first `n` activities is the tally of the prefix of length `n`. */
  lemma CountIntensityTake(s: seq<Activity>, n: nat, i: Intensity)
    requires n <= |s|
    ensures CountIntensityUpTo(s, n, i) == CountIntensity(s[..n], i)
  {
    CountIntensityUpToAgree(s, s[..n], n, i);
  }

  /** Tallies add up over a concatenation. */
  lemma {:induction false} CountIntensityAppend(s: seq<Activity>, t: seq<Activity>, i: Intensity)
    ensures CountIntensity(s + t, i) == CountIntensity(s, i) + CountIntensity(t, i)
    decreases |t|
  {
    if t == [] {
      assert s + t == s;
    } else {
      var t' := t[..|t| - 1];
      assert (s + t)[..|s + t| - 1] == s + t';
      CountIntensityTake(s + t, |s + t| - 1, i);
      CountIntensityTake(t, |t| - 1, i);
      CountIntensityAppend(s, t', i);
    }
  }

  /** Tallies count occurrences: reordering the activities leaves every tally unchanged. */
  lemma {:induction false} CountIntensityPermutation(s: seq<Activity>, t: seq<Activity>, i: Intensity)
    requires multiset(s) == multiset(t)
    ensures CountIntensity(s, i) == CountIntensity(t, i)
    decreases |s|
  {
    if s == [] {
      assert |t| == |multiset(t)| == 0;
    } else {
      var x := s[|s| - 1];
      var s' := s[..|s| - 1];
      assert s == s' + [x];
      assert x in multiset(t);
      var j :| 0 <= j < |t| && t[j] == x;
      var left, right := t[..j], t[j + 1..];
      assert t == left + [x] + right;
      assert multiset(s) == multiset(s') + multiset{x};
      assert multiset(t) == multiset(left) + multiset{x} + multiset(right);
      assert multiset(left + right) == multiset(left) + multiset(right);
      assert multiset(s') == multiset(s) - multiset{x};
      assert multiset(left + right) == multiset(t) - multiset{x};
      CountIntensityPermutation(s', left + right, i);
      CountIntensityAppend(s', [x], i);
      CountIntensityAppend(left, right, i);
      CountIntensityAppend(left + [x], right, i);
      CountIntensityAppend(left, [x], i);
    }
  }

  /** The set of tracked types performed depends only on which activities occur. */
  lemma TrackedTypesInSameElements(s: seq<Activity>, t: seq<Activity>)
    requires forall a :: a in s <==> a in t
    ensures TrackedTypesIn(s) == TrackedTypesIn(t)
  {
    forall ty
      ensures ty in TrackedTypesIn(s) <==> ty in TrackedTypesIn(t)
    {
      TrackedTypesInMembership(s, ty);
      TrackedTypesInMembership(t, ty);
      if exists k :: 0 <= k < |s| && HasType(s[k], ty) {
        var k :| 0 <= k < |s| && HasType(s[k], ty);
        assert s[k] in t;
      }
      if exists k :: 0 <= k < |t| && HasType(t[k], ty) {
        var k :| 0 <= k < |t| && HasType(t[k], ty);
        assert t[k] in s;
      }
    }
  }

  /** The response does not depend on the order in which the activities were fetched. */
  lemma RateOrderIndependent(s: seq<Activity>, t: seq<Activity>)
    requires multiset(s) == multiset(t)
    ensures Rate(s) == Rate(t)
  {
    assert |s| == |multiset(s)| == |multiset(t)| == |t|;
    assert forall a :: a in s <==> a in t by {
      forall a
        ensures a in s <==> a in t
      {
        assert a in s <==> a in multiset(s);
        assert a in t <==> a in multiset(t);
      }
    }
    assert AllResolved(s) <==> AllResolved(t) by {
      if !AllResolved(s) {
        var k :| 0 <= k < |s| && s[k].exercise.None?;
        assert s[k] in t;
      }
      if !AllResolved(t) {
        var k :| 0 <= k < |t| && t[k].exercise.None?;
        assert t[k] in s;
      }
    }
    CountIntensityPermutation(s, t, High);
    CountIntensityPermutation(s, t, Medium);
    TrackedTypesInSameElements(s, t);
  }

  /**
   Replacing one activity by another of the same type whose intensity is
   neither high nor medium (low, or a string outside the enumeration) leaves
   the response unchanged: such an intensity only feeds its own tally.
   */
  lemma RateIgnoresLowAndUnknownIntensity(s: seq<Activity>, k: nat, e: Exercise)
    requires k < |s| && s[k].exercise.Some?
    requires e.exerciseType == s[k].exercise.value.exerciseType
    requires s[k].exercise.value.intensity !in {High, Medium}
    requires e.intensity !in {High, Medium}
    ensures Rate(s[k := Activity(Some(e))]) == Rate(s)
  {
    var t := s[k := Activity(Some(e))];
    assert t[..k] == s[..k] && t[k + 1..] == s[k + 1..];
    CountIntensitySplit(s, k, High);
    CountIntensitySplit(t, k, High);
    CountIntensitySplit(s, k, Medium);
    CountIntensitySplit(t, k, Medium);
    forall ty
      ensures ty in TrackedTypesIn(s) <==> ty in TrackedTypesIn(t)
    {
      TrackedTypesInMembership(s, ty);
      TrackedTypesInMembership(t, ty);
      assert forall j :: 0 <= j < |s| ==> (HasType(s[j], ty) <==> HasType(t[j], ty));
    }
    assert AllResolved(s) <==> AllResolved(t) by {
      assert forall j :: 0 <= j < |s| ==> (s[j].exercise.Some? <==> t[j].exercise.Some?);
    }
    assert TrackedTypesIn(s) == TrackedTypesIn(t);
    assert CountIntensity(s, High) == CountIntensity(t, High);
    assert CountIntensity(s, Medium) == CountIntensity(t, Medium);
    assert TotalPoints(s) == TotalPoints(t);
  }

  /** The tally of `s` is the tally before position `k`, its activity, and the tally after. */
  lemma CountIntensitySplit(s: seq<Activity>, k: nat, i: Intensity)
    requires k < |s|
    ensures CountIntensity(s, i)
      == CountIntensity(s[..k], i) + (if HasIntensity(s[k], i) then 1 else 0) + CountIntensity(s[k + 1..], i)
  {
    assert s == s[..k] + [s[k]] + s[k + 1..];
    assert [s[k]][..0] == [];
    CountIntensityAppend(s[..k] + [s[k]], s[k + 1..], i);
    CountIntensityAppend(s[..k], [s[k]], i);
  }

  /** The tracked types of two lists that agree on their first `n` activities agree up to `n`. */
  lemma {:induction false} TrackedTypesUpToAgree(s: seq<Activity>, t: seq<Activity>, n: nat)
    requires n <= |s| && n <= |t|
    requires forall j :: 0 <= j < n ==> s[j] == t[j]
    ensures TrackedTypesUpTo(s, n) == TrackedTypesUpTo(t, n)
  {
    if n > 0 {
      TrackedTypesUpToAgree(s, t, n - 1);
    }
  }

  /** A type outside the tracked five, trekking included, never adds to variety. */
  lemma UntrackedTypeAddsNoVariety(s: seq<Activity>, a: Activity)
    requires a.exercise.Some? && a.exercise.value.exerciseType !in Tracked
    ensures VarietyCount(s + [a]) == VarietyCount(s)
  {
    TrackedTypesUpToAgree(s + [a], s, |s|);
  }

  /** A type already performed earlier in the day is not counted twice. */
  lemma RepeatedTypeAddsNoVariety(s: seq<Activity>, k: nat, a: Activity)
    requires k < |s| && a.exercise.Some? && HasType(s[k], a.exercise.value.exerciseType)
    ensures VarietyCount(s + [a]) == VarietyCount(s)
  {
    TrackedTypesUpToAgree(s + [a], s, |s|);
    TrackedTypesStep(s + [a], |s|);
    TrackedTypesInMembership(s, a.exercise.value.exerciseType);
  }

  /** A day of trekking alone earns nothing for variety. */
  lemma TrekkingOnlyDay(s: seq<Activity>)
    requires forall k :: 0 <= k < |s| ==> HasType(s[k], Trekking)
    ensures VarietyCount(s) == 0
  {
    assert TrackedTypesIn(s) == {} by {
      forall ty | ty in TrackedTypesIn(s)
        ensures false
      {
        TrackedTypesInMembership(s, ty);
      }
    }
  }

  /** Three low-intensity cardio activities: 10 for volume, none for intensity, 5 for one type. */
  lemma ThreeLowCardioActivities()
    ensures var a := Activity(Some(Exercise(Cardio, Low)));
      Rate([a, a, a]) == Rated(15, LowRating)
  {
    var a := Activity(Some(Exercise(Cardio, Low)));
    var s := [a, a, a];
    assert TrackedTypesUpTo(s, 1) == {Cardio};
    assert TrackedTypesUpTo(s, 2) == {Cardio};
    assert TrackedTypesUpTo(s, 3) == {Cardio};
  }

  /** Four high cardio and two medium yoga activities: 20 + 10 + 10 points, "medium". */
  lemma SixMixedActivities()
    ensures var c, y := Activity(Some(Exercise(Cardio, High))), Activity(Some(Exercise(Yoga, Medium)));
      Rate([c, c, c, c, y, y]) == Rated(40, MediumRating)
  {
    var c, y := Activity(Some(Exercise(Cardio, High))), Activity(Some(Exercise(Yoga, Medium)));
    var s := [c, c, c, c, y, y];
    assert CountIntensityUpTo(s, 2, High) == 2 && CountIntensityUpTo(s, 2, Medium) == 0;
    assert CountIntensityUpTo(s, 4, High) == 4 && CountIntensityUpTo(s, 4, Medium) == 0;
    assert CountIntensityUpTo(s, 6, High) == 4 && CountIntensityUpTo(s, 6, Medium) == 2;
    assert TrackedTypesUpTo(s, 1) == {Cardio};
    assert TrackedTypesUpTo(s, 2) == {Cardio};
    assert TrackedTypesUpTo(s, 3) == {Cardio};
    assert TrackedTypesUpTo(s, 4) == {Cardio};
    assert TrackedTypesUpTo(s, 5) == {Cardio, Yoga};
    assert TrackedTypesUpTo(s, 6) == {Cardio, Yoga};
  }
}
