# LifeSprint daily activity rating

LifeSprint is a fitness-logging service. One of its requests, `GET
/activity/today`, rates the authenticated user's day. It takes the
activities logged for the current date, each with its exercise reference
populated, and answers with `{points, rating}`. Three considerations are
scored and summed:

- **volume**: points for the number of activities;
- **intensity**: from five activities on, points for how many exercises were
  of high or medium intensity, tallied in a key/value map seeded with
  `low`, `medium` and `high` at zero;
- **variety**: points for how many distinct exercise types were performed,
  counted through a map seeded with the five tracked types `weight`,
  `cardio`, `sport`, `yoga` and `body-weight` at zero.

The total is then classified as `none`, `low`, `medium` or `high`. An
activity whose exercise reference did not resolve makes the handler throw
when it reads the exercise's fields. The handler's `catch` turns that into a
server error with no score.

The project has four modules:

- `Exercises` (exercises.dfy): the records the engine reads. Exercise type
  and intensity are datatypes with one constructor per enumerated string
  and one for any other string. The string keys and their parsers are
  mutual inverses.
- `RatingSpec` (rating_spec.dfy): the rating as functions of the day's
  activity list. This is the reference definition the handler is proved
  against.
- `Rating` (rating.dfy): the handler as it runs. It has a `points`
  accumulator, an intensity pass and a variety pass. Each pass is a loop
  over the list that updates a map, plus a counter in the variety pass.
  Loop invariants tie the maps and the counter to the count functions of
  `RatingSpec`. `RateToday` is proved equal to `RatingSpec.Rate` on every
  input.
- `RatingProperties` (rating_properties.dfy): what the rating promises.
  - Each point table (volume, intensity, variety) is monotone, and so is
    the classification.
  - Only the high and medium tallies matter.
  - Untracked and repeated types add no variety.
  - The response does not depend on the order of the activities.
  - Worked examples are included.

`Wrappers` (wrappers.dfy) holds the `Option` type.

Two JavaScript behaviours of the handler are modelled explicitly:

- Reading a key the intensity map was never given yields `undefined`, and
  `undefined + 1` is `NaN`. An intensity outside the three seeded ones
  therefore gets its own key holding `NaN` (`Rating.Tally`). It never
  reaches the high or medium tallies.
- Reading an untracked type from the type map also yields `undefined`, and
  `undefined == 0` is false. Such a type, `trekking` included, is never
  counted.

A missing exercise reference makes the whole request a server error
(routes/api/rating.js:76, 118, 169-171). The point tables give at most
40 + 30 + 30 = 100 points.

## Model

| member | source | states |
|---|---|---|
| Exercises.TypeKey | models/Exercise.js:5-12 | a type maps to a string outside the six enumerated ones exactly when it is an unknown type |
| Exercises.ParseType | models/Exercise.js:5-12 | reading a stored type string gives back a type whose key is that same string, so every string has a representation |
| Exercises.ParseTypeKey | models/Exercise.js:5-12 | reading the key of a type gives back that type, so distinct types have distinct keys |
| Exercises.IntensityKey | models/Exercise.js:29-33 | an intensity maps to a string outside `low`, `medium` and `high` exactly when it is an unknown intensity |
| Exercises.ParseIntensity | models/Exercise.js:29-33 | reading a stored intensity string gives back an intensity whose key is that same string |
| Exercises.ParseIntensityKey | models/Exercise.js:29-33 | reading the key of an intensity gives back that intensity |
| RatingSpec.CountIntensityUpTo | routes/api/rating.js:75-82 | the tally of an intensity over the first `n` activities is at most `n` |
| RatingSpec.CountIntensity | routes/api/rating.js:75-82 | the tally of an intensity over the day is at most the number of activities |
| RatingSpec.TrackedTypesUpTo | routes/api/rating.js:109-128 | the types met among the first `n` activities that count for variety are among the five tracked ones |
| RatingSpec.TrackedTypesStep | routes/api/rating.js:117-127 | one more resolved activity adds its type to the types met exactly when the type is tracked and not yet met |
| RatingSpec.TrackedTypesIn | routes/api/rating.js:109-128 | the types that count for variety over the day are among the five tracked ones |
| RatingSpec.TrackedTypesUpToMembership | routes/api/rating.js:109-128 | a type is among those met in the first `n` activities iff it is tracked and one of those activities has it |
| RatingSpec.TrackedTypesInMembership | routes/api/rating.js:109-128 | a type counts for variety iff it is tracked and some activity of the day has it |
| RatingSpec.VarietyCount | routes/api/rating.js:116-128 | the number of distinct tracked types is at most 5 |
| RatingSpec.VolumePoints | routes/api/rating.js:45-55 | volume points are at most 40, a multiple of 10, and 0 exactly when there are no activities |
| RatingSpec.IntensityPoints | routes/api/rating.js:69-90 | intensity points are at most 30 and a multiple of 10; 0 below five activities, at least 10 from five on; 30 needs at least ten high, 20 or more needs high plus medium at least ten |
| RatingSpec.VarietyPoints | routes/api/rating.js:132-142 | variety points are at most 30, a multiple of 5, and 0 exactly when no tracked type was met |
| RatingSpec.RatingOf | routes/api/rating.js:157-166 | the rating is none exactly at 0 points, low exactly on [1,30), medium exactly on [30,75) and high exactly from 75 points on |
| RatingSpec.RatingName | routes/api/rating.js:157-166 | the rating is written as one of the strings `none`, `low`, `medium`, `high` |
| RatingProperties.RatingNameInjective | routes/api/rating.js:157-166 | distinct ratings are written as distinct strings |
| RatingSpec.IntensityScore | routes/api/rating.js:69-90 | the intensity points of a day are at most 30 and a multiple of 10, 0 exactly when the day has fewer than five activities, and 30 only with at least ten high-intensity activities |
| RatingSpec.TotalPoints | routes/api/rating.js:20-142 | the total is at most 100, a multiple of 5, and 0 exactly for an empty day |
| RatingSpec.Rate | routes/api/rating.js:19-173 | the response is a server error exactly when some activity's exercise is missing; otherwise the points are in [0,100], a multiple of 5, 0 only for an empty day, and the rating is the classification of the points |
| Rating.TallyIntensities | routes/api/rating.js:69-82 | the intensity pass fails exactly when some exercise is missing; otherwise the map's keys are the three seeded intensities and every other intensity met, each seeded one holds its tally, and every other key holds NaN; the hashmap `get` and `get(key) + 1` on a missing key or NaN are modelled by `Get` and `Increment` |
| Rating.TallyTypes | routes/api/rating.js:109-128 | the variety pass fails exactly when some exercise is missing; otherwise the map holds the five tracked types, at 1 for those met and 0 for the rest, and the counter equals the number of distinct tracked types |
| Rating.MarksStep | routes/api/rating.js:119-124 | the type-map lookup is 0 exactly for a tracked type not yet met, and setting it to 1 marks it as met |
| Rating.RateToday | routes/api/rating.js:34-171 | the handler's response equals the reference rating `Rate` of the day's activities, server error included; the JS `>=` and `+` on tallies at rating.js:84 and 86, false and NaN-absorbing on NaN, are modelled by `AtLeast` and `Plus` |
| RatingProperties.VolumePointsMonotone | routes/api/rating.js:45-55 | more activities never earn fewer volume points |
| RatingProperties.VarietyPointsMonotone | routes/api/rating.js:132-142 | more distinct types never earn fewer variety points |
| RatingProperties.IntensityPointsMonotone | routes/api/rating.js:69-90 | more activities, or higher high or medium tallies, never earn fewer intensity points |
| RatingProperties.RatingMonotone | routes/api/rating.js:157-166 | more points never give a lower rating |
| RatingProperties.TopIntensityNeedsTenActivities | routes/api/rating.js:69-90 | 30 intensity points imply at least ten activities and at least ten high-intensity ones |
| RatingProperties.EmptyDay | routes/api/rating.js:20-166 | a day without activities is rated 0 points, none |
| RatingProperties.NoRatingOnlyForEmptyDay | routes/api/rating.js:157-166 | a rated day is rated none exactly when it has no activities |
| RatingProperties.CountIntensityUpToAgree | routes/api/rating.js:75-82 | the tally over the first `n` activities depends only on those activities |
| RatingProperties.CountIntensityTake | routes/api/rating.js:75-82 | the tally over the first `n` activities is the tally of the prefix of length `n` |
| RatingProperties.CountIntensityAppend | routes/api/rating.js:75-82 | tallies add up over a concatenation of activity lists |
| RatingProperties.CountIntensityPermutation | routes/api/rating.js:75-82 | two lists with the same activities in any order have the same tally of every intensity |
| RatingProperties.CountIntensitySplit | routes/api/rating.js:75-82 | the tally of a list is the tally before one position, that activity's contribution, and the tally after |
| RatingProperties.TrackedTypesInSameElements | routes/api/rating.js:117-128 | lists with the same activities meet the same tracked types |
| RatingProperties.RateOrderIndependent | routes/api/rating.js:34-171 | reordering the day's activities leaves the response unchanged |
| RatingProperties.RateIgnoresLowAndUnknownIntensity | routes/api/rating.js:78-90 | changing an activity's intensity between low and unknown values, type kept, leaves the response unchanged |
| RatingProperties.TrackedTypesUpToAgree | routes/api/rating.js:117-128 | the types met in the first `n` activities depend only on those activities |
| RatingProperties.UntrackedTypeAddsNoVariety | routes/api/rating.js:119 | an activity of an untracked type, trekking included, leaves the variety count unchanged |
| RatingProperties.RepeatedTypeAddsNoVariety | routes/api/rating.js:119-127 | an activity of a type already performed leaves the variety count unchanged |
| RatingProperties.TrekkingOnlyDay | routes/api/rating.js:109-119 | a day made only of trekking has variety count 0 |
| RatingProperties.ThreeLowCardioActivities | routes/api/rating.js:45-166 | three low-intensity cardio activities are rated 15 points, low |
| RatingProperties.SixMixedActivities | routes/api/rating.js:45-166 | four high cardio and two medium yoga activities are rated 40 points, medium |

## Left out

- Express routing, the `auth` middleware, status codes and JSON serialisation (routes/api/rating.js:1-19, 168, 171). These are I/O wiring. The response is the `Response` datatype, and the rating's JSON string is `RatingSpec.RatingName`.
- The database fetch and `populate` (routes/api/rating.js:24-32). This is a foreign call. The day's populated activity list is the input, and an unresolved reference is `None`.
- The clock read that selects the current date (routes/api/rating.js:22). The list is already the list for that date.
- `console.log` and `console.error` calls. They do not affect the response.
- The exercise's name, primary muscle group and numeric measures (duration, reps, weight, distance, laps, sets). The rating never reads them.
- An exercise whose type or intensity field is absent rather than a string. The schema requires both fields, so every resolved exercise carries two strings.
- The other routes and the models other than the exercise enumerations. They hold persistence glue and schema declarations, not rating logic.
