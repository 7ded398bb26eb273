# Sun and moon position configuration: a verified model

This project models the core of `node-red-contrib-sun-position` in Dafny. That core has two parts.

The first is the **position configuration node** (`nodes/position-config.js`). It holds a latitude and longitude. It keeps day-keyed caches of today's and tomorrow's sun and moon event tables. It resolves named sun and moon events with an offset and returns the next occurrence on an allowed weekday. It evaluates typed node properties: numbers, times and generic values. It compares two properties with a fixed operator catalogue. It builds sun and moon position snapshots and classifies the moon phase into the shared eight-entry `moonPhases` catalogue.

The second is the **`input` handler of the `sun-position` node** (`nodes/sun-position.js`). It reads the sun position and evaluates the start and end times. It derives `sunInSky`. It runs one azimuth-limit check per rule, remembers the check results between messages and sets the node status.

The modules are:

| module | file | contents |
|---|---|---|
| `Wrappers` | wrappers.dfy | `Option`, `Result`, `Outcome` |
| `Js` | js.dfy | JavaScript numbers (`NaN` or a real), `Date` values (integer milliseconds or Invalid Date), the values a property can evaluate to, truthiness, `String()`/`Number()`, `includes` |
| `Errors` | errors.dfy | the errors the configuration node throws |
| `Calendar` | calendar.dfy | `addDays`, the proleptic Gregorian UTC calendar, the weekday and the day id of `_getUTCDayId` |
| `Coordinates` | coordinates.dfy | `_checkCoordinates` |
| `Collaborators` | collaborators.dfy | the ephemeris, the Node-RED property evaluator and the date/time helper library, as records of functions |
| `MoonPhases` | moon_phases.dfy | the `moonPhases` catalogue (a class whose entries are updated in place) and the phase classifier |
| `Properties` | properties.dfy | `getFloatProp`, `getPropValue`, `comparePropValue`, JavaScript loose equality and relational comparison, `String.prototype.split` with a string separator |
| `PositionConfiguration` | position_config.dfy | the configuration node as a class (`PositionConfig`): caches, event-time resolution, `getTimeProp`, `getSunCalc`, `getMoonCalc`, each method proved against a pure specification function |
| `SunPosition` | sun_position.dfy | `getNumProp`, the rule loop, `sunInSky`, the error status and the node status, and the node as a class (`SunPositionNode`) |

Time and the outside world are inputs to the model:

- Every call that reads the system clock (`new Date()`) takes the clock as an integer millisecond parameter `clock`. One call sees one clock value.
- The ephemeris (`getTimes`, `getMoonTimes`, `getPosition`, `getMoonPosition`, `getMoonIllumination`) is a value of type `Ephemeris`.
- Node-RED's `evaluateNodeProperty` and the date/time helpers are fields of a value of type `Runtime`. The helpers are `addOffset`, `normalizeDate`, `getTimeOfText`, `getDateOfText`, `getSpecialDayOfMonth`, `calcDayOffset`, `isTrue`/`isFalse`, `checkLimits` and the local weekday. A helper that can throw returns a `Result`.
- The engine-level conversions (`parseFloat`, `Number(string)`, `String(number)`, `new Date(string)`, the degree/radian conversions) are fields of a value of type `Engine`.

## Model

| member | source | states |
|---|---|---|
| Calendar.AddDays | nodes/position-config.js:63-67 | `addDays(n)` moves a time value by exactly n·86 400 000 ms; the UTC day number moves by n and the time of day is kept |
| Calendar.AddDaysTo | nodes/position-config.js:63-67 | on a `Date`, `addDays` keeps an Invalid Date invalid and otherwise shifts by n whole days |
| Calendar.TimeOfDay | nodes/position-config.js:63-67 | the UTC time of day lies in [0, 86 400 000) |
| Calendar.DayNumberOf | nodes/position-config.js:63-67 | day number and time of day recover the day and time a time value was built from |
| Calendar.DaysInMonth | nodes/position-config.js:734-736 | every UTC month has 28 to 31 days |
| Calendar.NextDay | nodes/position-config.js:734-736 | the civil day after a valid date is a valid date |
| Calendar.PrevDay | nodes/position-config.js:734-736 | the civil day before a valid date is a valid date |
| Calendar.NextOfPrev | nodes/position-config.js:734-736 | stepping back one day and forward one day returns the same date |
| Calendar.CivilOfDay | nodes/position-config.js:734-736 | the UTC year, month and day of every day number form a valid date |
| Calendar.CivilOfNextDay | nodes/position-config.js:734-736 | the date of day n+1 is the civil successor of the date of day n |
| Calendar.WeekdayOfDay | nodes/position-config.js:734-736 | the UTC weekday lies in 0..6 |
| Calendar.DayIdOf | nodes/position-config.js:734-736 | `_getUTCDayId` has a value exactly for valid dates (NaN for Invalid Date) |
| Calendar.DayIdDeterminesFields | nodes/position-config.js:734-736 | two instants have the same day id iff they have the same UTC year, month and weekday |
| Calendar.ConsecutiveDayIdsDiffer | nodes/position-config.js:734-736 | two consecutive UTC days always get different day ids |
| Calendar.SameMonthAhead | nodes/position-config.js:734-736 | moving j days ahead within a month keeps year and month and adds j to the day of month |
| Calendar.DayIdRepeatsAWeekLater | nodes/position-config.js:734-736 | when seven days later is still in the same UTC month, the day id seven days later is the same |
| Js.TimeValue | nodes/position-config.js:171 | `getTime()` is NaN exactly for an Invalid Date |
| Js.IncludesIffOccurs | nodes/position-config.js:504-515 | `includes` holds iff the part occurs at some index of the text |
| Coordinates.CheckCoordinates | nodes/position-config.js:656-666 | no error iff both coordinates are valid; the longitude error iff the longitude is NaN or outside [-180, 180]; the latitude error iff the longitude is fine and the latitude is NaN or outside [-90, 90]; otherwise the both-zero error |
| Coordinates.CoordinateExamples | nodes/position-config.js:656-666 | (0, 0) is rejected as missing, latitude 91 and longitude 200 are rejected in that order, (45, 9) passes |
| MoonPhases.PhaseEntry.constructor | nodes/position-config.js:14-61 | a catalogue entry has its emoji, code, name and weight and no value or angle yet |
| MoonPhases.CatalogueEntriesDistinct | nodes/position-config.js:14-61 | the eight catalogue entries are distinct objects |
| MoonPhases.NewCatalogue | nodes/position-config.js:14-61 | the catalogue holds the eight phases with their names, emoji, codes and weights in order |
| MoonPhases.PhaseIndex | nodes/position-config.js:607-631 | the classifier picks one of the eight entries and the phase lies in that entry's band (thresholds 0.01, 0.25, 0.26, 0.50, 0.51, ≤0.75, 0.76) |
| MoonPhases.BandsDisjoint | nodes/position-config.js:607-631 | no phase lies in two bands, so exactly one entry is chosen |
| MoonPhases.PhaseIndexMonotone | nodes/position-config.js:607-631 | a larger phase never selects an earlier entry |
| MoonPhases.PhaseOf | nodes/position-config.js:607-631 | the classification is on `phase`; a NaN phase fails every test and selects the last entry |
| MoonPhases.PhaseBoundaryExamples | nodes/position-config.js:607-631 | the values at and just below each threshold select the entries the if-chain gives, 0.75 selecting Waning Gibbous |
| MoonPhases.PhaseAngle | nodes/position-config.js:634 | the phase angle is phase·360 degrees unless the angle type is exactly "rad", in which case those degrees are converted to radians |
| Properties.DefaultOrNaN | nodes/position-config.js:210-214 | `def \|\| NaN` is NaN iff the default is falsy (0 or NaN) and is the default otherwise |
| Properties.GetFloatProp | nodes/position-config.js:203-230 | type "none" and an untyped non-number give `def \|\| NaN`; a NaN result only comes from those paths with a falsy default; the source value is the value itself ("num", untyped numbers), `msg.payload`, `msg.value`, or what Node-RED evaluates (its exception propagates); a null/undefined source throws "not evaluable", an unparsable one throws "not a valid Number", anything else gives `parseFloat` of its text |
| Properties.GetFloatPropEvaluatedAsNum | nodes/position-config.js:219-229 | an evaluated property succeeds exactly when a "num" property holding the evaluated value does, with the same number |
| Properties.RawPropValue | nodes/position-config.js:424-444 | "num" gives `Number(value)`; "msgPayload" and "msgValue" give those message fields; "DayOfMonth" gives false when the helper finds no such day and otherwise true iff that day's day of month is today's; any other type gives Node-RED's evaluated value, or null with the caught error logged |
| Properties.GetPropValue | nodes/position-config.js:419-452 | an empty or "none" type gives null without calling the callback; with a callback its result is returned; without one a nullish value is logged as not evaluable and null is returned |
| Properties.GetPropValueNullIffNotEvaluable | nodes/position-config.js:445-451 | without a callback the result is never undefined, and is null iff the type is empty/"none" or the not-evaluable error was logged |
| Properties.ToPrimitive | nodes/position-config.js:492-503 | arrays and objects convert to their string form before comparison |
| Properties.LooseEqualsSymmetric | nodes/position-config.js:492-495 | `==` as used by "equal"/"nequal" is symmetric |
| Properties.LooseEqualsExamples | nodes/position-config.js:492-495 | null == undefined, null != 0, "1" == 1, true == "1", "" == false, NaN != NaN |
| Properties.TextLessTrichotomy | nodes/position-config.js:496-503 | string `<` is a strict total order: irreflexive, asymmetric, and of two different strings one is below the other |
| Properties.LessThan | nodes/position-config.js:496-503 | two strings compare by code units, two finite numbers by value, a NaN operand gives undefined; two string primitives always compare; undefined only arises from a NaN operand |
| Properties.Split | nodes/position-config.js:507-512 | `split` always yields at least one piece |
| Properties.SplitJoin | nodes/position-config.js:507-512 | joining the pieces with the separator gives back the string |
| Properties.FirstPieceIsPrefix | nodes/position-config.js:507-512 | the first piece is a prefix of the string |
| Properties.SplitPiecesFree | nodes/position-config.js:507-512 | no piece contains the separator |
| Properties.SplitWithoutSeparator | nodes/position-config.js:507-512 | a string without the separator splits into itself alone |
| Properties.Emptiness | nodes/position-config.js:470-483 | "empty"/"nempty" apply only to strings, arrays and objects; empty means no characters, no elements or no keys; the empty values are exactly `""`, `[]` and `{}` |
| Properties.CompareBinary | nodes/position-config.js:492-515 | a binary operator throws exactly when it is "containSome"/"containEvery" and operand B is not a string; finite numbers give `==`, `!=`, `<`, `<=`, `>`, `>=` by value; a NaN operand makes every ordering false; for strings, "contain" searches A for B and the list operators search A for the pieces of B |
| Properties.CompareBinaryTexts | nodes/position-config.js:492-503 | two strings: "equal"/"nequal" are text (in)equality, "lt"/"gt" code-unit order, "lte"/"gte" that order or equality |
| Properties.ComparePropValue | nodes/position-config.js:454-520 | an empty or "none" type of A gives false with nothing evaluated; unary operators decide on A alone; a binary operator evaluates B with addID 2 and gives the binary comparison of both values with both logs, or its exception; an unknown operator logs and gives `isTrue(a)`; only the contain-list operators can throw |
| Properties.UnaryIgnoresOperandB | nodes/position-config.js:461-491 | for a unary operator, operand B's type and value do not matter |
| Properties.EmptyAndNonEmpty | nodes/position-config.js:470-483 | "empty" and "nempty" are both false for values that are not strings, arrays or objects, and are each other's negation otherwise |
| Properties.ContainWithoutSeparator | nodes/position-config.js:506-515 | a list without the literal `,;\|` is one piece, so "containSome" and "containEvery" both mean `includes` of the whole list |
| Properties.ContainSomeExample | nodes/position-config.js:506-510 | "abc" does not contain some of "x\|b\|z", but does contain some of "x,;\|b" |
| PositionConfiguration.CheckSite | nodes/position-config.js:656-666 | the coordinate check passes iff the position is valid and otherwise fails with the coordinate error |
| PositionConfiguration.CheckDay | nodes/position-config.js:676-689 | a check keeps the cache or replaces both tables and the id with the computed ones; it replaces them only when the stored id differs from the computed one; it fails exactly when a refresh is due and the coordinates are invalid |
| PositionConfiguration.CheckDaySameDayIsNoOp | nodes/position-config.js:676-689 | after a check for a valid date, a second check for that date keeps the cache, whatever it would compute |
| PositionConfiguration.CheckDayInvalidDateRecomputes | nodes/position-config.js:676-689 | an Invalid Date (NaN id) always recomputes |
| PositionConfiguration.CheckDayNextDayRecomputes | nodes/position-config.js:676-689 | after a check on one day, a check on the next day recomputes |
| PositionConfiguration.RefreshIffYearMonthOrWeekdayChanged | nodes/position-config.js:676-689 | a refresh is due iff the UTC year, month or weekday of the instant changed |
| PositionConfiguration.CheckDayWeekLaterKeepsCache | nodes/position-config.js:676-689 | a check a week later in the same UTC month keeps the previous tables |
| PositionConfiguration.NormalizeMoonFlags | nodes/position-config.js:695-714 | after the patch `alwaysUp` and `alwaysDown` are booleans, a true flag stays true, every other flag becomes false, the events are kept |
| PositionConfiguration.NormalizeMoonFlagsIdempotent | nodes/position-config.js:691-717 | patching twice is patching once; patching a normalized table changes nothing |
| PositionConfiguration.ResolveSunTime | nodes/position-config.js:130-164 | only the coordinate check can throw and only for an invalid position; the check record is kept; the only error is "no valid weekday" with an active filter; without a roll the offset value of today's entry; `next === 1` takes tomorrow's entry with the offset; `next > 1` takes the entry of the table computed for now plus `floor(next)` days with the offset; any other rolled `next` applies the offset twice |
| PositionConfiguration.SunWeekdayFilter | nodes/position-config.js:147-160 | with an active day filter and the unfiltered value `v1`: `dayx > 0` takes the entry of the table for `v1` moved by `dayx` days (keeping `v1` if the event is missing) with the offset; `dayx < 0` keeps `v1` and reports "no valid weekday"; `dayx == 0` keeps `v1` without error |
| PositionConfiguration.ResolveMoonTime | nodes/position-config.js:166-201 | only the coordinate check can throw; the value is an Invalid Date iff the error is "no valid time for moon"; any other error is "no valid weekday"; a rolled `next === 1` takes tomorrow's entry with the offset, `next > 1` the entry of the moon times for now plus `floor(next)` days; today's entry with the offset is kept while it is still after now, and for a `next` that is neither 1 nor above 1 |
| PositionConfiguration.MoonWeekdayFilter | nodes/position-config.js:184-198 | with an active day filter and the unfiltered value `v1`: `dayx > 0` takes the entry of the moon times for the clock's now (not `v1`) moved by `dayx` days, with the offset; `dayx < 0` keeps `v1` and reports "no valid weekday"; `dayx == 0` keeps `v1`; an Invalid Date reports "no valid time for moon" instead |
| PositionConfiguration.DispatchTimeProp | nodes/position-config.js:351-399 | `days === ''` gives "no valid days" with nothing evaluated; type "" or "none" gives "wrong type"; "date" gives now; `fix` is true except for evaluated types other than "json"; "dateSpecific" gives now normalized with the offset (read with default 0); "entered" gives the text's time normalized with the offset, or null when the text has no time; "pdsTime"/"pdmTime" give the sun or moon event with the offset read with default 0, and only those give events; any other type is evaluated, a falsy result giving null with "not evaluable" and a truthy one its date normalized with the offset; a thrown offset or evaluation is passed on; only types other than "", "none" and "date" can throw |
| PositionConfiguration.CompleteTimeProp | nodes/position-config.js:408-416 | the returned value is never missing: it falls back to now, with "can not get time" when no error was set, and an existing error is kept |
| PositionConfiguration.EventTimeProp | nodes/position-config.js:377-406 | a sun or moon result is a fixed time with its value and error; a throw is rethrown wrapped with the original error |
| PositionConfiguration.ResolveDateArg | nodes/position-config.js:524-539 | a Date argument is used as is, a string only when it parses to a valid date, anything else counts as no date |
| PositionConfiguration.SunSnapshot | nodes/position-config.js:541-557 | the snapshot carries the date, the position, and the degree fields as azimuth/altitude iff the angle type is "deg" (radians otherwise); the radian azimuth and altitude are the ephemeris position at that date, the degree altitude is the converted radian altitude and the degree azimuth is 180 plus the converted radian azimuth |
| PositionConfiguration.MoonSnapshot | nodes/position-config.js:586-605 | the snapshot carries the date as `lastUpdate`, the coordinates, the ephemeris fraction and distance and the chosen catalogue entry as phase; with "deg" the azimuth is 180 plus the converted azimuth and altitude, parallactic angle, illumination angle and zenith angle (illumination angle minus parallactic angle) are converted to degrees; otherwise they are the ephemeris' radians |
| PositionConfiguration.PositionConfig.constructor | nodes/position-config.js:77-109 | a new node has stub snapshots with ts 0 and both caches filled for now and now + 1 day under today's id, the moon flags patched |
| PositionConfiguration.PositionConfig.Create | nodes/position-config.js:77-109 | construction fails exactly for invalid coordinates, with the coordinate error |
| PositionConfiguration.PositionConfig.SunTimesRefresh | nodes/position-config.js:668-674 | a refresh checks the coordinates first; on failure nothing changes, otherwise both sun tables and the id are replaced; the moon cache is untouched |
| PositionConfiguration.PositionConfig.SunTimesCheck | nodes/position-config.js:676-689 | the sun cache after the check is `CheckDay` of the cache before, for the given date (or now) and now + 1 day; the result reports that date and its id |
| PositionConfiguration.PositionConfig.MoonTimesRefresh | nodes/position-config.js:691-717 | as the sun refresh, with both moon tables' flags patched |
| PositionConfiguration.PositionConfig.MoonTimesCheck | nodes/position-config.js:719-732 | the moon cache after the check is `CheckDay` of the cache before with patched tables |
| PositionConfiguration.PositionConfig.GetSunTime | nodes/position-config.js:130-164 | runs the sun check for `now` and then returns `ResolveSunTime` over the checked tables; a failing check is thrown |
| PositionConfiguration.PositionConfig.GetMoonTime | nodes/position-config.js:166-201 | runs the moon check for `now` and then returns `ResolveMoonTime` over the checked tables |
| PositionConfiguration.PositionConfig.GetTimeProp | nodes/position-config.js:351-417 | the result is the dispatch completed with the fallback, or the sun/moon resolution for now; every throw is rewrapped with the time's type and value; a sun or moon event leaves its cache as the day check set it (unchanged when the check fails) and the other cache untouched; computed values change nothing |
| PositionConfiguration.PositionConfig.SunEventTimeProp | nodes/position-config.js:377-381 | the "pdsTime" branch: the sun cache becomes what the day check for now makes it (unchanged when the check throws), the moon cache is untouched, and the result is the fixed sun event for now or the rethrown failure |
| PositionConfiguration.PositionConfig.MoonEventTimeProp | nodes/position-config.js:382-386 | the "pdmTime" branch: the moon cache becomes what the day check for now makes it (unchanged when the check throws), the sun cache is untouched, and the result is the fixed moon event for now or the rethrown failure |
| PositionConfiguration.PositionConfig.GetSunCalc | nodes/position-config.js:522-568 | without a valid date and within 4000 ms of the last snapshot the last snapshot is returned; with `noTimes` the fresh snapshot is returned and nothing changes; otherwise the sun cache is checked, today's table attached and `lastSunCalc` replaced, which happens only then |
| PositionConfiguration.PositionConfig.GetMoonCalc | nodes/position-config.js:571-654 | without a valid date it throws a TypeError and nothing changes; otherwise exactly the catalogue entry chosen by `phase` gets the phase value and angle, the others keep theirs; the times come from the moon table after a check of the sun cache, and only then is `lastMoonCalc` replaced |
| SunPosition.GetNumProp | nodes/sun-position.js:226-235 | undefined for type "none" and exactly when `getFloatProp` throws; NaN is only possible for an untyped value |
| SunPosition.RuleLoop | nodes/sun-position.js:147-161 | one `checkLimits` result per rule in rule order; `posChanged` is always false; port i+1 is filled iff rule i's check is true, with `posChanged` = differs from the previous result and the current azimuth |
| SunPosition.RecordedTime | nodes/sun-position.js:96-140 | a start or end time is recorded iff its type is not "none" and it has no error, as its `getTime()` |
| SunPosition.ErrorStatus | nodes/sun-position.js:110-139 | the error status is empty iff neither time failed; an end-time error wins over a start-time error |
| SunPosition.SunInSky | nodes/sun-position.js:142-145 | `sunInSky` is set iff both times are recorded and truthy, and is then true iff start < now < end, strictly |
| SunPosition.StatusOf | nodes/sun-position.js:164-201 | an error status shows as is; otherwise yellow/blue iff both times are recorded, yellow only when the sun is in the sky; "no Data loaded!" iff there is also no last update |
| SunPosition.StatusShowsSunInSky | nodes/sun-position.js:142-177 | the yellow status shows iff no time failed and now lies strictly between start and end |
| SunPosition.SunPositionNode.constructor | nodes/sun-position.js:42-50 | a new node has no previous check results |
| SunPosition.SunPositionNode.OnInput | nodes/sun-position.js:64-216 | no configuration and a throwing sun calculation end early; a falsy azimuth (0 included) sends only the position and checks no rule; otherwise the payload carries the loop's results, which replace `azimuthPos`, the recorded times, `sunInSky` and the status; only a completed message changes `azimuthPos` |

## Left out

- The HTTP admin endpoints and static file serving, node registration, `register`/`deregister`, translation (`RED._`), logging, `send`/`done` and message cloning are host I/O. Log entries are returned as data where a function decides them.
- `getOutDataProp` and `getDateFromProp` mostly pass values to the date formatting and parsing helpers. They are not part of this model.
- `suncalc.js`, `dateTimeHelper.js` and Node-RED's `evaluateNodeProperty` are not part of this model. They are uninterpreted functions in `Ephemeris` and `Runtime`.
- Floating point is not modelled. Numbers are reals or NaN. The degree/radian conversions and the position angles are engine functions; the model states only which field is selected.
- The range limit of JavaScript time values (±8.64e15 ms) is not modelled: any integer is a valid time value.
- Strings are sequences of code points, not UTF-16 code units.
- `next` is a number in `getSunTime`/`getMoonTime`/`getTimeProp`. A string or boolean `next` is not modelled.
- `getMoonTime` reads the moon table by event name only. Reading the `alwaysUp`/`alwaysDown` flags as event names is not modelled.
- `getSunTime` copies every field of the sun table entry onto its result. Only the entry's time is modelled.
- The time types of `getTimeProp` are strings; an undefined type is not modelled.
- The calls in `nodes/sun-position.js` whose signatures differ from the configuration node's methods (`getSunCalc` with five arguments, `getTimeProp` with an options object, `toTimeString`, `toDateTimeString`) are inputs of `SunPositionNode.OnInput`, as their results. The status texts built from them are represented by the numbers they format.
- `SunPosition.RuleLoop`: the ports array has `rules.length + 1` slots. In the source it has `rules.length` slots plus the last one when the last rule matches; empty slots send nothing either way.
- `PositionConfiguration.PositionConfig.GetSunTime`: the local weekday (`getDay()`) is an uninterpreted function of the time value; time zones are not modelled.

## Notes on the source

These are behaviours of the code as written. The model follows them.

- The moon debounce at `nodes/position-config.js:581` calls `this.lastMoonCalc` as a function. The field always holds an object, so `getMoonCalc` without a valid date always throws a TypeError. Its 3000 ms threshold is never reached.
- `getMoonCalc` refreshes the sun cache (line 637), not the moon cache, before attaching the moon table.
- After a refresh, tomorrow's table is always for the clock + 1 day, even when the check was for another date (lines 681, 724).
- The moon weekday shift computes the event for the clock + `dayx` days (line 188). The sun weekday shift uses the current result + `dayx` days (line 152).
- `_getUTCDayId` adds the weekday, not the day of month. A date and the same date a week later in the same month share an id, so the check keeps the earlier tables (`CheckDayWeekLaterKeepsCache`).
- `containSome`/`containEvery` split on the regular expression `/,;\|/`. It matches only the three-character sequence `,;|`, so lists written as `a,b` or `a|b` are a single piece (`ContainSomeExample`).
- `payload.posChanged` starts false and is only and-ed, so it is always false. Each rule port's `posChanged` is meaningful.
- `getSunCalc` attaches today's sun table for the clock, even when a different date was given.
- The phase angle tests `angleType === 'rad'`, while the other angles test `=== 'deg'`. For any other angle type the phase angle is in degrees and the rest is in radians.
- In `getTimeProp`, an offset type of "none" gives an offset of `0 || NaN`, that is NaN.
