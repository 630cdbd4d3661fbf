# Mapty workout model

A Dafny model of the workout domain of the Mapty map-based workout logger
(`script.js`): the `Workout` record with its `Running` and `Cycling` variants,
their derived pace, speed, id and description, the validation and append rule of
the form-submit handler `App._newWorkout`, and the lookup by id in
`App._moveToPopup`.

Layout, one module per component:

- `wrappers.dfy` — `Option`, standing for JavaScript's `undefined` result.
- `decimal.dfy` — decimal text of a non-negative integer (`n + ''`), its reading
  back, and the suffix arithmetic behind the id.
- `validation.dfy` — the `Num` values a coerced form field can hold (a finite
  real, NaN, +Infinity, -Infinity), `Number.isFinite`, `> 0`, and the two
  `every`-based checks.
- `workout.dfy` — the `Workout` tagged union over a shared `Base`, the two
  constructors, `click`, the id and description, and the validity invariant.
- `description.dfy` — a parser for description text, used to prove that a
  description determines its workout type and calendar day.
- `app.dfy` — the submit rule over an immutable `seq<Workout>`, the `find` by
  id, and the centring of the map on a clicked list entry.

The browser clock is a parameter: `Clock(now, today)` carries `Date.now()` for
the id and the month and day of `new Date()` for the date and description. The
map click is a `Coords` parameter. Arithmetic is over `real`.

## Model

| member | source | states |
|---|---|---|
| Validation.AllFinite | script.js:175-176 | true exactly when every input is finite (not NaN, not ±Infinity) |
| Validation.AllPositive | script.js:177-178 | true exactly when every input compares greater than zero; NaN and -Infinity never do |
| Validation.ChecksIgnoreOrder | script.js:175-178 | both checks give the same answer for any reordering of the same inputs |
| Validation.ChecksOnSamples | script.js:175-178 | fractions and positives pass; zero, -1, NaN and +Infinity are rejected where each check applies |
| Decimal.ParseDigits | script.js:18 | `Decimal.Digits`, the model of `Date.now() + ''`, reads back as the timestamp |
| Decimal.ParseSuffix | script.js:18 | the last k characters of a digit string denote its value modulo 10^k |
| Decimal.DigitsLength | script.js:18 | a number of at least 10^k prints with more than k digits |
| Workouts.Id | script.js:18 | the id has length min(10, length of the timestamp text) and is a suffix of that text |
| Workouts.IdIsTimestampModulo | script.js:18 | the id is all digits and reads as the timestamp modulo 10^10 |
| Workouts.IdHasTenCharacters | script.js:18 | every timestamp of at least 10^9 ms yields an id of exactly ten characters |
| Workouts.NewRunning | script.js:45-61 | type is running; coords, distance, duration kept; clicks 0; id from the clock; description `Workouts.Description` of running and the clock's date; cadence kept; pace times distance equals duration |
| Workouts.NewCycling | script.js:64-78 | type is cycling; coords, distance, duration kept; clicks 0; id from the clock; description `Workouts.Description` of cycling and the clock's date; elevation gain kept; speed times duration equals 60 times distance |
| Workouts.NewRunningValid | script.js:45-61 | positive inputs give a valid running workout with a positive pace and a description matching its type and date |
| Workouts.NewCyclingValid | script.js:64-78 | positive distance and duration give a valid cycling workout with a positive speed, whatever the elevation gain |
| Workouts.Click | script.js:40-42 | the click count goes up by one and every other field is unchanged |
| Workouts.ClickPreservesValid | script.js:40-42 | clicking keeps a workout valid |
| DescriptionText.LabelRoundTrip | script.js:37 | `Workouts.Capitalize` with `Workouts.ToUpper`, the model of `type[0].toUpperCase() + type.slice(1)`, gives "Running" or "Cycling", and that label reads back to its type |
| DescriptionText.MonthNameRoundTrip | script.js:32-35 | each of the twelve month names is space-free and identifies its month index |
| DescriptionText.DescriptionRoundTrip | script.js:31-38 | `Workouts.Description`, the model of the "<Type> on <Month> <day>" template, parses back to its type and calendar day |
| DescriptionText.DescriptionInjective | script.js:31-38 | two descriptions are equal only for the same type, month and day |
| DescriptionText.DescriptionSamples | script.js:31-38 | running on month 0 day 5 reads "Running on January 5"; cycling on month 11 day 31 reads "Cycling on December 31" |
| App.InputsValid | script.js:192-207 | the handler's check accepts exactly: distance and duration finite and positive, plus a finite positive cadence for running or a finite elevation for cycling |
| App.Build | script.js:199-210 | an accepted form yields a workout satisfying the validity invariant |
| App.NewWorkout | script.js:174-214 | rejected iff the fields are not acceptable, in which case the list is unchanged and the alert is shown; otherwise exactly one workout of the chosen type is appended at the clicked coordinates with the entered values, earlier entries unchanged |
| App.NewWorkoutPreservesValid | script.js:174-214 | submitting keeps every workout in the list valid |
| App.CyclingAcceptsAnyFiniteElevation | script.js:203-210 | with finite positive distance and duration, a cycling submission is accepted iff the elevation is finite, zero and negative included |
| App.SecondaryFieldIgnored | script.js:192-210 | running ignores the elevation field and cycling ignores the cadence field |
| App.RunningSubmitScenario | script.js:184-199 | 5 km in 24 min at cadence 178 clicked at (39, -12) stores one running workout there with pace 4.8 |
| App.NegativeDistanceScenario | script.js:195-208 | distance -1 is refused with the alert and the empty list stays empty |
| App.FindIndex | script.js:299-301 | the index of the first workout with the id, or none exactly when no workout has it |
| App.Find | script.js:299-301 | the first workout of the list carrying the id, or nothing exactly when none carries it |
| App.FindAfterAppend | script.js:214 | appending leaves every earlier lookup unchanged; the new workout is found only for an id no earlier one has |
| App.MoveToPopup | script.js:293-309 | a click outside an entry does nothing; a click on an entry centres the map at zoom 13 on the first workout with that id |

## Left out

- Persistence (`_setLocalStorage`, `_getLocalStorage`, `reset`): browser storage and `JSON.stringify`/`JSON.parse`, including the loss of the class prototype on load.
- Form display (`_showForm`, `_hideForm` and its one-second timer, `_toggleElevationField`) and list rendering (`_renderWorkout`, `toFixed` formatting): DOM presentation.
- Leaflet: map creation, tile layer, markers and popups (`_loadMap`, `_renderWorkoutMarker`) and the animation options of `setView`; only the centre and the zoom level 13 are modelled.
- Geolocation (`_getPosition`) and its failure alert: an asynchronous browser callback.
- The `App` constructor's event wiring: the model's functions are the handlers themselves.
- String-to-number coercion (`+input.value`), IEEE-754 rounding and signed zero: fields are given as `Num` values, arithmetic is exact over `real`.
- A type selector value other than "running" or "cycling": the select element offers only those two, so `Kind` has two values. The source would push `undefined` and then fail in `_renderWorkoutMarker`.
- Workouts.NewRunning: requires a non-zero distance, where JavaScript would store Infinity or NaN as the pace; every caller has already checked that the distance is positive.
- Workouts.NewCycling: requires a non-zero duration, where JavaScript would store Infinity or NaN as the speed; every caller has already checked that the duration is positive.
- App.MoveToPopup: requires the clicked entry's id to be in the list, because the source dereferences the `find` result without a check and would throw otherwise.
- Workouts.Id: the timestamp is a natural number; a clock before 1970 (negative `Date.now()`, printed with a minus sign) is not modelled.
- Workouts.ToUpper: upper-cases ASCII letters only; the type names contain nothing else.
- The date and the id come from two separate clock reads in the source (`new Date()` and `Date.now()`); the model takes them as two independent fields of `Clock`, so it does not assume they agree.
- `click()` is never called: the call in `_moveToPopup` is disabled in the source, so the submit and lookup rules never change the click count.
