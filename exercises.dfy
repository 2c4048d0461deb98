/**
 Exercise and activity records as the rating engine receives them: the
 day's activities, each with its exercise reference already populated,
 or left empty when the referenced exercise could not be found.

 The stored schema keeps the exercise type and intensity as lower-case
 strings restricted to an enumeration.  Here each is a datatype with one
 constructor per enumerated value and one for any other string, so that a
 value outside the enumeration can still be represented; the name carried
 by that last constructor is never one of the enumerated strings, so every
 stored string has exactly one representation.
 */
module Exercises {
  import opened Wrappers

  /** A stored type string outside the six enumerated ones. */
  type UnknownTypeName = s: string | s !in {"weight", "cardio", "sport", "yoga", "body-weight", "trekking"}
    witness ""

  datatype ExerciseType =
    | Weight
    | Cardio
    | Sport
    | Yoga
    | BodyWeight
    | Trekking
    | UnknownType(name: UnknownTypeName)

  /** A stored intensity string outside the three enumerated ones. */
  type UnknownIntensityName = s: string | s !in {"low", "medium", "high"}
    witness ""

  datatype Intensity =
    | Low
    | Medium
    | High
    | UnknownIntensity(name: UnknownIntensityName)

  /** The two fields of an exercise that the rating reads. */
  datatype Exercise = Exercise(exerciseType: ExerciseType, intensity: Intensity)

  /** One logged activity; `exercise` is None when the reference did not resolve. */
  datatype Activity = Activity(exercise: Option<Exercise>)

  /** The string under which a type is stored. */
  function TypeKey(t: ExerciseType): (s: string)
    ensures t.UnknownType? <==> s !in {"weight", "cardio", "sport", "yoga", "body-weight", "trekking"}
  {
    match t
    case Weight => "weight"
    case Cardio => "cardio"
    case Sport => "sport"
    case Yoga => "yoga"
    case BodyWeight => "body-weight"
    case Trekking => "trekking"
    case UnknownType(name) => name
  }

  /** Reads a stored type string; the inverse of TypeKey. */
  function ParseType(s: string): (t: ExerciseType)
    ensures TypeKey(t) == s
  {
    if s == "weight" then Weight
    else if s == "cardio" then Cardio
    else if s == "sport" then Sport
    else if s == "yoga" then Yoga
    else if s == "body-weight" then BodyWeight
    else if s == "trekking" then Trekking
    else UnknownType(s)
  }

  lemma ParseTypeKey(t: ExerciseType)
    ensures ParseType(TypeKey(t)) == t
  {
  }

  /** The string under which an intensity is stored. */
  function IntensityKey(i: Intensity): (s: string)
    ensures i.UnknownIntensity? <==> s !in {"low", "medium", "high"}
  {
    match i
    case Low => "low"
    case Medium => "medium"
    case High => "high"
    case UnknownIntensity(name) => name
  }

  /** Reads a stored intensity string; the inverse of IntensityKey. */
  function ParseIntensity(s: string): (i: Intensity)
    ensures IntensityKey(i) == s
  {
    if s == "low" then Low
    else if s == "medium" then Medium
    else if s == "high" then High
    else UnknownIntensity(s)
  }

  lemma ParseIntensityKey(i: Intensity)
    ensures ParseIntensity(IntensityKey(i)) == i
  {
  }
}
