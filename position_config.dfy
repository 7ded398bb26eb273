/** The configuration node `positionConfigurationNode`: a position on Earth,
    a cache of today's and tomorrow's sun and moon event tables keyed by a
    UTC day id, the resolution of a named sun or moon event to a time, the
    time-property dispatcher, and the sun and moon snapshots.

    The system clock `new Date()` is the parameter `clock` (milliseconds since
    the epoch); one call reads it once. */
module PositionConfiguration {
  import opened Wrappers
  import opened Js
  import opened Errors
  import opened Calendar
  import opened Coordinates
  import opened Collaborators
  import opened MoonPhases
  import opened Properties

  // ---------------------------------------------------------------------
  // Records

  /** The `error` texts of a time result. */
  datatype TimeError =
    | NoValidDays                                 // 'No valid Days given!'
    | WrongType(vType: string, value: JsValue)    // 'wrong type "<type>"="<value>"'
    | NoValidWeekday                              // 'No valid day of week found!'
    | NoValidMoonTime(name: string)               // 'No valid time for moon <name> found!'
    | NotEvaluable(vType: string, value: JsValue) // errors.notEvaluableProperty
    | CannotGetTime(vType: string, value: JsValue) // 'Can not get time for <type>=<value>'

  /** What a cache check returns: `{calcDate, dayId}`; a NaN day id is None. */
  datatype CheckInfo = CheckInfo(calcDate: JsDate, dayId: Option<int>)

  /** The record `getSunTime` / `getMoonTime` return. */
  datatype TimeResult = TimeResult(check: CheckInfo, value: JsDate, error: Option<TimeError>)

  /** The record `getTimeProp` returns. */
  datatype TimeProp = TimeProp(value: JsDate, error: Option<TimeError>, fix: bool)

  /** The position and the collaborators a computation needs. */
  datatype Site = Site(rt: Runtime, eph: Ephemeris, latitude: Num, longitude: Num)

  /** `_checkCoordinates` on the site's position. */
  function CheckSite(s: Site): (r: Outcome<Failure>)
    ensures r.Pass? <==> ValidPosition(s.latitude, s.longitude)
    ensures r.Fail? ==> r.error.InvalidCoordinates?
  {
    match CheckCoordinates(s.latitude, s.longitude)
    case None => Pass
    case Some(c) => Fail(InvalidCoordinates(c))
  }

  // ---------------------------------------------------------------------
  // The day-keyed cache

  /** A cached pair of tables and the day id they were computed for. */
  datatype DayCache<T> = DayCache(today: T, tomorrow: T, dayId: Option<int>)

  /** `storedId !== dayId`: a NaN id on either side never matches. */
  predicate NeedsRefresh(stored: Option<int>, computed: Option<int>) {
    !(stored.Some? && computed.Some? && stored.value == computed.value)
  }

  /** A check of the cache against day id `id`: the cache is kept when the
      stored id matches; otherwise the coordinates are validated and the
      tables are replaced by `today` and `tomorrow` and the id stored. */
  function CheckDay<T>(c: DayCache<T>, id: Option<int>, coords: Outcome<Failure>, today: T, tomorrow: T)
    : (r: Result<DayCache<T>, Failure>)
    ensures r.Ok? ==> r.value == c || r.value == DayCache(today, tomorrow, id)
    ensures r.Ok? && id.Some? ==> r.value.dayId == id
    ensures r.Err? <==> NeedsRefresh(c.dayId, id) && coords.Fail?
    ensures r.Ok? && r.value != c ==> NeedsRefresh(c.dayId, id)
  {
    if !NeedsRefresh(c.dayId, id) then Ok(c)
    else if coords.Fail? then Err(coords.error)
    else Ok(DayCache(today, tomorrow, id))
  }

  /** A second check for the same valid day changes nothing. */
  lemma CheckDaySameDayIsNoOp<T>(c: DayCache<T>, d: JsDate, coords: Outcome<Failure>, a: T, b: T,
                                 coords2: Outcome<Failure>, a2: T, b2: T)
    requires d.Date?
    requires CheckDay(c, DayIdOf(d), coords, a, b).Ok?
    ensures var c2 := CheckDay(c, DayIdOf(d), coords, a, b).value;
      CheckDay(c2, DayIdOf(d), coords2, a2, b2) == Ok(c2)
  {
  }

  /** A check for an Invalid Date always recomputes. */
  lemma CheckDayInvalidDateRecomputes<T>(c: DayCache<T>, coords: Outcome<Failure>, a: T, b: T)
    requires coords.Pass?
    ensures CheckDay(c, DayIdOf(InvalidDate), coords, a, b) == Ok(DayCache(a, b, None))
  {
  }

  /** After a check at time t, a check one UTC day later recomputes. */
  lemma CheckDayNextDayRecomputes<T>(c: DayCache<T>, t: int, coords: Outcome<Failure>, a: T, b: T,
                                     a2: T, b2: T)
    requires coords.Pass?
    ensures var c1 := CheckDay(c, DayIdOf(Date(t)), coords, a, b).value;
      CheckDay(c1, DayIdOf(Date(AddDays(t, 1))), coords, a2, b2)
        == Ok(DayCache(a2, b2, DayIdOf(Date(AddDays(t, 1)))))
  {
    ConsecutiveDayIdsDiffer(t);
  }

  /** Recomputation happens exactly when the UTC year, month or weekday changed. */
  lemma RefreshIffYearMonthOrWeekdayChanged(t: int, u: int)
    ensures NeedsRefresh(DayIdOf(Date(t)), DayIdOf(Date(u))) <==>
      || CivilOfDay(DayNumber(t)).year != CivilOfDay(DayNumber(u)).year
      || CivilOfDay(DayNumber(t)).month != CivilOfDay(DayNumber(u)).month
      || WeekdayOfDay(DayNumber(t)) != WeekdayOfDay(DayNumber(u))
  {
    DayIdDeterminesFields(t, u);
  }

  /** Because the id uses the weekday, a cache filled on some day of a month
      is taken as current again seven days later in the same month. */
  lemma CheckDayWeekLaterKeepsCache<T>(c: DayCache<T>, t: int, coords: Outcome<Failure>, a: T, b: T,
                                       a2: T, b2: T)
    requires coords.Pass?
    requires CivilOfDay(DayNumber(t)).day + 7
      <= DaysInMonth(CivilOfDay(DayNumber(t)).year, CivilOfDay(DayNumber(t)).month)
    ensures var c1 := CheckDay(c, DayIdOf(Date(t)), coords, a, b).value;
      CheckDay(c1, DayIdOf(Date(AddDays(t, 7))), coords, a2, b2) == Ok(c1)
  {
    DayIdRepeatsAWeekLater(t);
  }

  /** The moon table's flags after a refresh has patched them. */
  predicate FlagsNormalized(m: MoonTimes) {
    m.alwaysUp.Some? && m.alwaysDown.Some?
  }

  /** A missing or false `alwaysUp` / `alwaysDown` flag becomes false. */
  function NormalizeMoonFlags(m: MoonTimes): (r: MoonTimes)
    ensures FlagsNormalized(r) && r.events == m.events
    ensures r.alwaysUp == Some(true) <==> m.alwaysUp == Some(true)
    ensures r.alwaysDown == Some(true) <==> m.alwaysDown == Some(true)
  {
    MoonTimes(m.events, Some(m.alwaysUp == Some(true)), Some(m.alwaysDown == Some(true)))
  }

  lemma NormalizeMoonFlagsIdempotent(m: MoonTimes)
    ensures NormalizeMoonFlags(NormalizeMoonFlags(m)) == NormalizeMoonFlags(m)
    ensures FlagsNormalized(m) ==> NormalizeMoonFlags(m) == m
  {
    if FlagsNormalized(m) {
      if m.alwaysUp.value { assert m.alwaysUp == Some(true); } else { assert m.alwaysUp == Some(false); }
      if m.alwaysDown.value { assert m.alwaysDown == Some(true); } else { assert m.alwaysDown == Some(false); }
    }
  }

  // ---------------------------------------------------------------------
  // Event-time resolution

  /** `Object.assign(result, table[name])` as seen through `result.value`: the
      entry's value when the event exists, otherwise the value already held. */
  function SunEntry(table: SunTable, name: string, current: JsDate): JsDate {
    if name in table then table[name] else current
  }

  /** `new Date(times[name])`: an Invalid Date when the event is missing. */
  function MoonEntry(times: MoonTimes, name: string): JsDate {
    if name in times.events then times.events[name] else InvalidDate
  }

  /** `next && !isNaN(next) && candidate.getTime() <= now.getTime()`. */
  predicate RollRequested(next: Num, candidate: JsDate, now: JsDate) {
    NumTruthy(next) && candidate.Date? && now.Date? && candidate.ms <= now.ms
  }

  /** `days && days !== '*' && days !== ''`. */
  predicate DaysFilterActive(days: Option<string>) {
    days.Some? && days.value != "" && days.value != "*"
  }

  /** `next > 1`. */
  predicate BeyondTomorrow(next: Num) {
    next.Fin? && next.v > 1.0
  }

  /** `(new Date()).addDays(next)` for `next > 1`: `setUTCDate` truncates the
      fractional day count, which for positive values is the floor. */
  function DaysAheadOfNow(clock: int, next: Num): JsDate
    requires BeyondTomorrow(next)
  {
    Date(AddDays(clock, next.v.Floor))
  }

  /** The sun event after the roll-forward step, for a candidate `v` that is
      not after `now`. */
  function RollSun(s: Site, tomorrow: SunTable, clock: int, name: string,
                   offset: Num, multiplier: Num, next: Num, v: JsDate): Result<JsDate, Failure>
  {
    if next == Fin(1.0) then
      Ok(s.rt.addOffset(SunEntry(tomorrow, name, v), offset, multiplier))
    else if BeyondTomorrow(next) then
      if CheckSite(s).Fail? then Err(CheckSite(s).error)
      else
        var table := s.eph.getTimes(DaysAheadOfNow(clock, next), s.latitude, s.longitude);
        Ok(s.rt.addOffset(SunEntry(table, name, v), offset, multiplier))
    else
      Ok(s.rt.addOffset(v, offset, multiplier))
  }

  /** The sun event after the weekday filter: the event `dayx` days after
      the current value when the next allowed weekday is ahead. */
  function ShiftSun(s: Site, name: string, offset: Num, multiplier: Num, days: Option<string>, v: JsDate)
    : Result<(JsDate, Option<TimeError>), Failure>
  {
    if !DaysFilterActive(days) then Ok((v, None))
    else
      var dayx := s.rt.calcDayOffset(days.value, s.rt.localWeekday(v));
      if dayx > 0 then
        if CheckSite(s).Fail? then Err(CheckSite(s).error)
        else
          var table := s.eph.getTimes(AddDaysTo(v, dayx), s.latitude, s.longitude);
          Ok((s.rt.addOffset(SunEntry(table, name, v), offset, multiplier), None))
      else if dayx < 0 then Ok((v, Some(NoValidWeekday)))
      else Ok((v, None))
  }

  /** `getSunTime` over the tables the cache holds after its check. */
  function ResolveSunTime(s: Site, today: SunTable, tomorrow: SunTable, check: CheckInfo, clock: int,
                          now: JsDate, name: string, offset: Num, multiplier: Num, next: Num,
                          days: Option<string>): (r: Result<TimeResult, Failure>)
    // the only error thrown is the coordinate check's
    ensures r.Err? ==> r.error.InvalidCoordinates? && !ValidPosition(s.latitude, s.longitude)
    ensures ValidPosition(s.latitude, s.longitude) ==> r.Ok?
    ensures r.Ok? ==> r.value.check == check
    // the only error reported is a weekday filter without an allowed day
    ensures r.Ok? && r.value.error.Some? ==> r.value.error == Some(NoValidWeekday) && DaysFilterActive(days)
    // today's event with the offset, unless a roll or the weekday filter applies
    ensures var v0 := s.rt.addOffset(SunEntry(today, name, InvalidDate), offset, multiplier);
      !RollRequested(next, v0, now) && !DaysFilterActive(days) ==> r == Ok(TimeResult(check, v0, None))
    // next === 1: tomorrow's event with the offset
    ensures var v0 := s.rt.addOffset(SunEntry(today, name, InvalidDate), offset, multiplier);
      RollRequested(next, v0, now) && next == Fin(1.0) && !DaysFilterActive(days) ==>
        r == Ok(TimeResult(check, s.rt.addOffset(SunEntry(tomorrow, name, v0), offset, multiplier), None))
    // any other truthy next not above 1: the offset is applied a second time
    ensures var v0 := s.rt.addOffset(SunEntry(today, name, InvalidDate), offset, multiplier);
      RollRequested(next, v0, now) && next != Fin(1.0) && !BeyondTomorrow(next) && !DaysFilterActive(days) ==>
        r == Ok(TimeResult(check, s.rt.addOffset(v0, offset, multiplier), None))
    // next > 1: the event of the table computed for now plus next days
    ensures var v0 := s.rt.addOffset(SunEntry(today, name, InvalidDate), offset, multiplier);
      RollRequested(next, v0, now) && BeyondTomorrow(next) && !DaysFilterActive(days)
        && ValidPosition(s.latitude, s.longitude) ==>
        var table := s.eph.getTimes(Date(AddDays(clock, next.v.Floor)), s.latitude, s.longitude);
        r == Ok(TimeResult(check, s.rt.addOffset(SunEntry(table, name, v0), offset, multiplier), None))
  {
    var v0 := s.rt.addOffset(SunEntry(today, name, InvalidDate), offset, multiplier);
    var v1 :- if RollRequested(next, v0, now) then RollSun(s, tomorrow, clock, name, offset, multiplier, next, v0)
              else Ok(v0);
    var shifted :- ShiftSun(s, name, offset, multiplier, days, v1);
    Ok(TimeResult(check, shifted.0, shifted.1))
  }

  /** The moon event after the roll-forward step; a `next` that is neither 1
      nor above 1 leaves the value as it is. */
  function RollMoon(s: Site, tomorrow: MoonTimes, clock: int, name: string,
                    offset: Num, multiplier: Num, next: Num, v: JsDate): Result<JsDate, Failure>
  {
    if next == Fin(1.0) then
      Ok(s.rt.addOffset(MoonEntry(tomorrow, name), offset, multiplier))
    else if BeyondTomorrow(next) then
      if CheckSite(s).Fail? then Err(CheckSite(s).error)
      else
        var times := s.eph.getMoonTimes(DaysAheadOfNow(clock, next), s.latitude, s.longitude);
        Ok(s.rt.addOffset(MoonEntry(times, name), offset, multiplier))
    else
      Ok(v)
  }

  /** The moon event after the weekday filter: the event `dayx` days after
      the clock's now, not after the current value. */
  function ShiftMoon(s: Site, clock: int, name: string, offset: Num, multiplier: Num,
                     days: Option<string>, v: JsDate): Result<(JsDate, Option<TimeError>), Failure>
  {
    if !DaysFilterActive(days) then Ok((v, None))
    else
      var dayx := s.rt.calcDayOffset(days.value, s.rt.localWeekday(v));
      if dayx > 0 then
        if CheckSite(s).Fail? then Err(CheckSite(s).error)
        else
          var times := s.eph.getMoonTimes(Date(AddDays(clock, dayx)), s.latitude, s.longitude);
          Ok((s.rt.addOffset(MoonEntry(times, name), offset, multiplier), None))
      else if dayx < 0 then Ok((v, Some(NoValidWeekday)))
      else Ok((v, None))
  }

  /** `getMoonTime` over the tables the cache holds after its check. */
  function ResolveMoonTime(s: Site, today: MoonTimes, tomorrow: MoonTimes, check: CheckInfo, clock: int,
                           now: JsDate, name: string, offset: Num, multiplier: Num, next: Num,
                           days: Option<string>): (r: Result<TimeResult, Failure>)
    ensures r.Err? ==> r.error.InvalidCoordinates? && !ValidPosition(s.latitude, s.longitude)
    ensures ValidPosition(s.latitude, s.longitude) ==> r.Ok?
    ensures r.Ok? ==> r.value.check == check
    // an Invalid Date always comes with the moon error, which replaces any other
    ensures r.Ok? ==> (r.value.value.InvalidDate? <==> r.value.error == Some(NoValidMoonTime(name)))
    ensures r.Ok? && r.value.error.Some? && r.value.value.Date? ==>
      r.value.error == Some(NoValidWeekday) && DaysFilterActive(days)
    // today's event with the offset while it is still after now, or for a
    // next that is neither 1 nor above 1
    ensures var v0 := s.rt.addOffset(MoonEntry(today, name), offset, multiplier);
      (!RollRequested(next, v0, now) || (next != Fin(1.0) && !BeyondTomorrow(next))) && !DaysFilterActive(days) ==>
        r.Ok? && r.value.value == v0
    // next === 1: tomorrow's event with the offset
    ensures var v0 := s.rt.addOffset(MoonEntry(today, name), offset, multiplier);
      RollRequested(next, v0, now) && next == Fin(1.0) && !DaysFilterActive(days) ==>
        r.Ok? && r.value.value == s.rt.addOffset(MoonEntry(tomorrow, name), offset, multiplier)
    // next > 1: the event of the moon times computed for now plus next days
    ensures var v0 := s.rt.addOffset(MoonEntry(today, name), offset, multiplier);
      RollRequested(next, v0, now) && BeyondTomorrow(next) && !DaysFilterActive(days)
        && ValidPosition(s.latitude, s.longitude) ==>
        var times := s.eph.getMoonTimes(Date(AddDays(clock, next.v.Floor)), s.latitude, s.longitude);
        r.Ok? && r.value.value == s.rt.addOffset(MoonEntry(times, name), offset, multiplier)
  {
    var v0 := s.rt.addOffset(MoonEntry(today, name), offset, multiplier);
    var v1 :- if RollRequested(next, v0, now) then RollMoon(s, tomorrow, clock, name, offset, multiplier, next, v0)
              else Ok(v0);
    var shifted :- ShiftMoon(s, clock, name, offset, multiplier, days, v1);
    var error := if shifted.0.InvalidDate? then Some(NoValidMoonTime(name)) else shifted.1;
    Ok(TimeResult(check, shifted.0, error))
  }

  /** The weekday filter acts on the time resolved without it, `v1`: when the
      next allowed weekday is `dayx > 0` days ahead, the sun event is taken
      from the table of `v1` moved by `dayx` days with the offset applied
      again; when no weekday is allowed the value stays and the weekday
      error is reported; when `v1` is already on an allowed day it stays. */
  lemma SunWeekdayFilter(s: Site, today: SunTable, tomorrow: SunTable, check: CheckInfo, clock: int,
                         now: JsDate, name: string, offset: Num, multiplier: Num, next: Num,
                         days: Option<string>)
    requires DaysFilterActive(days)
    requires ResolveSunTime(s, today, tomorrow, check, clock, now, name, offset, multiplier, next, None).Ok?
    ensures var v1 := ResolveSunTime(s, today, tomorrow, check, clock, now, name, offset, multiplier, next, None).value.value;
      var dayx := s.rt.calcDayOffset(days.value, s.rt.localWeekday(v1));
      var r := ResolveSunTime(s, today, tomorrow, check, clock, now, name, offset, multiplier, next, days);
      && (dayx > 0 && ValidPosition(s.latitude, s.longitude) ==>
            var table := s.eph.getTimes(AddDaysTo(v1, dayx), s.latitude, s.longitude);
            r == Ok(TimeResult(check, s.rt.addOffset(SunEntry(table, name, v1), offset, multiplier), None)))
      && (dayx < 0 ==> r == Ok(TimeResult(check, v1, Some(NoValidWeekday))))
      && (dayx == 0 ==> r == Ok(TimeResult(check, v1, None)))
  {
  }

  /** The moon's weekday filter: `dayx > 0` takes the moon times of the
      clock's now moved by `dayx` days, whatever `v1` was; otherwise `v1`
      stays, with the weekday error when no weekday is allowed, and the
      missing-event error whenever the value is an Invalid Date. */
  lemma MoonWeekdayFilter(s: Site, today: MoonTimes, tomorrow: MoonTimes, check: CheckInfo, clock: int,
                          now: JsDate, name: string, offset: Num, multiplier: Num, next: Num,
                          days: Option<string>)
    requires DaysFilterActive(days)
    requires ResolveMoonTime(s, today, tomorrow, check, clock, now, name, offset, multiplier, next, None).Ok?
    ensures var v1 := ResolveMoonTime(s, today, tomorrow, check, clock, now, name, offset, multiplier, next, None).value.value;
      var dayx := s.rt.calcDayOffset(days.value, s.rt.localWeekday(v1));
      var r := ResolveMoonTime(s, today, tomorrow, check, clock, now, name, offset, multiplier, next, days);
      && (dayx > 0 && ValidPosition(s.latitude, s.longitude) ==>
            var times := s.eph.getMoonTimes(Date(AddDays(clock, dayx)), s.latitude, s.longitude);
            var v := s.rt.addOffset(MoonEntry(times, name), offset, multiplier);
            r == Ok(TimeResult(check, v, if v.InvalidDate? then Some(NoValidMoonTime(name)) else None)))
      && (dayx < 0 ==>
            r == Ok(TimeResult(check, v1, Some(if v1.InvalidDate? then NoValidMoonTime(name) else NoValidWeekday))))
      && (dayx == 0 ==>
            r == Ok(TimeResult(check, v1, if v1.InvalidDate? then Some(NoValidMoonTime(name)) else None)))
  {
  }

  // ---------------------------------------------------------------------
  // The time-property dispatcher

  /** The value types `getTimeProp` handles itself; any other is evaluated
      by Node-RED. */
  const OwnTimeTypes: set<string> := {"", "none", "date", "dateSpecific", "entered", "pdsTime", "pdmTime"}

  /** What the dispatcher decides: a computed value (None is null), or the
      sun or moon event to resolve with the offset read from the properties. */
  datatype TimeSource =
    | Computed(value: Option<JsDate>, error: Option<TimeError>, fix: bool)
    | SunEvent(offset: Num)
    | MoonEvent(offset: Num)

  /** A thrown message as an error. */
  function Thrown<T>(r: Result<T, string>): Result<T, Failure> {
    match r
    case Ok(v) => Ok(v)
    case Err(m) => Err(Failure.Thrown(m))
  }

  /** The branches of `getTimeProp` before the fallback, with the errors its
      `try` block catches. */
  function DispatchTimeProp(rt: Runtime, msg: Msg, clock: int, vType: string, value: JsValue,
                            offset: JsValue, offsetType: Option<string>, multiplier: Num, next: Num,
                            days: Option<string>): (r: Result<TimeSource, Failure>)
    // an empty days list or an empty type is reported without evaluating anything
    ensures days == Some("") ==> r == Ok(Computed(None, Some(NoValidDays), true))
    ensures days != Some("") && (vType == "" || vType == "none") ==>
      r == Ok(Computed(None, Some(WrongType(vType, value)), true))
    ensures days != Some("") && vType == "date" ==> r == Ok(Computed(Some(Date(clock)), None, true))
    // a computed value is fixed unless it comes from a context, env, ... evaluation
    ensures r.Ok? && r.value.Computed? && days != Some("") ==>
      (!r.value.fix <==> vType !in OwnTimeTypes && vType != "json")
    ensures r.Ok? && r.value.SunEvent? ==> vType == "pdsTime"
    ensures r.Ok? && r.value.MoonEvent? ==> vType == "pdmTime"
    ensures r.Err? ==> days != Some("") && vType !in {"", "none", "date"}
    // "dateSpecific": now, normalized with the offset (default 0)
    ensures var off := GetFloatProp(rt, msg, offsetType, offset, Fin(0.0));
      days != Some("") && vType == "dateSpecific" ==>
        && (off.Ok? ==> r == Ok(Computed(rt.normalizeDate(Date(clock), off.value, multiplier, next, days), None, true)))
        && (off.Err? ==> r == Err(off.error))
    // "entered": the time of the text, normalized with the offset; an unreadable
    // text is null and the offset is not read
    ensures var off := GetFloatProp(rt, msg, offsetType, offset, Fin(0.0));
      days != Some("") && vType == "entered" ==>
        match rt.getTimeOfText(ToString(value, rt.engine), clock)
        case None => r == Ok(Computed(None, None, true))
        case Some(d) =>
          && (off.Ok? ==> r == Ok(Computed(rt.normalizeDate(d, off.value, multiplier, next, days), None, true)))
          && (off.Err? ==> r == Err(off.error))
    // "pdsTime" / "pdmTime": the event, with the offset read with default 0
    ensures var off := GetFloatProp(rt, msg, offsetType, offset, Fin(0.0));
      days != Some("") && vType == "pdsTime" ==>
        && (off.Ok? ==> r == Ok(SunEvent(off.value)))
        && (off.Err? ==> r == Err(off.error))
    ensures var off := GetFloatProp(rt, msg, offsetType, offset, Fin(0.0));
      days != Some("") && vType == "pdmTime" ==>
        && (off.Ok? ==> r == Ok(MoonEvent(off.value)))
        && (off.Err? ==> r == Err(off.error))
    // any other type is evaluated by Node-RED: a falsy result is not evaluable,
    // a truthy one is read as a date and normalized with the offset
    ensures var off := GetFloatProp(rt, msg, offsetType, offset, Fin(0.0));
      days != Some("") && vType !in OwnTimeTypes ==>
        match rt.evaluateNodeProperty(value, vType, msg)
        case Err(m) => r == Err(Failure.Thrown(m))
        case Ok(res) =>
          if !Truthy(res) then r == Ok(Computed(None, Some(NotEvaluable(vType, value)), vType == "json"))
          else match rt.getDateOfText(res)
            case Err(m) => r == Err(Failure.Thrown(m))
            case Ok(d) =>
              && (off.Ok? ==> r == Ok(Computed(rt.normalizeDate(d, off.value, multiplier, next, days), None, vType == "json")))
              && (off.Err? ==> r == Err(off.error))
  {
    if days == Some("") then Ok(Computed(None, Some(NoValidDays), true))
    else if vType == "" || vType == "none" then Ok(Computed(None, Some(WrongType(vType, value)), true))
    else if vType == "date" then Ok(Computed(Some(Date(clock)), None, true))
    else if vType == "dateSpecific" then
      var offsetX :- GetFloatProp(rt, msg, offsetType, offset, Fin(0.0));
      Ok(Computed(rt.normalizeDate(Date(clock), offsetX, multiplier, next, days), None, true))
    else if vType == "entered" then
      match rt.getTimeOfText(ToString(value, rt.engine), clock)
      case None => Ok(Computed(None, None, true))
      case Some(d) =>
        var offsetX :- GetFloatProp(rt, msg, offsetType, offset, Fin(0.0));
        Ok(Computed(rt.normalizeDate(d, offsetX, multiplier, next, days), None, true))
    else if vType == "pdsTime" then
      var offsetX :- GetFloatProp(rt, msg, offsetType, offset, Fin(0.0));
      Ok(SunEvent(offsetX))
    else if vType == "pdmTime" then
      var offsetX :- GetFloatProp(rt, msg, offsetType, offset, Fin(0.0));
      Ok(MoonEvent(offsetX))
    else
      var res :- Thrown(rt.evaluateNodeProperty(value, vType, msg));
      if Truthy(res) then
        var d :- Thrown(rt.getDateOfText(res));
        var offsetX :- GetFloatProp(rt, msg, offsetType, offset, Fin(0.0));
        Ok(Computed(rt.normalizeDate(d, offsetX, multiplier, next, days), None, vType == "json"))
      else
        Ok(Computed(None, Some(NotEvaluable(vType, value)), vType == "json"))
  }

  /** The fallback: a missing value becomes now, with an error that says so
      when none was set. */
  function CompleteTimeProp(clock: int, vType: string, value: JsValue,
                            v: Option<JsDate>, error: Option<TimeError>, fix: bool): (r: TimeProp)
    ensures r.value == v.GetOr(Date(clock)) && r.fix == fix
    ensures v.None? ==> r.error.Some?
    ensures v.None? && error.None? ==> r.error == Some(CannotGetTime(vType, value))
    ensures error.Some? ==> r.error == error
  {
    match v
    case Some(d) => TimeProp(d, error, fix)
    case None => TimeProp(Date(clock), if error.Some? then error else Some(CannotGetTime(vType, value)), fix)
  }

  /** A failure rethrown by `getTimeProp`, keeping the original. */
  function Rethrown(vType: string, value: JsValue, original: Failure): Failure {
    NotEvaluablePropertyAdd(vType, value, original)
  }

  /** A time result from `getSunTime` / `getMoonTime` as the dispatcher returns it. */
  function EventTimeProp(vType: string, value: JsValue, r: Result<TimeResult, Failure>): (p: Result<TimeProp, Failure>)
    ensures p.Ok? <==> r.Ok?
    ensures p.Ok? ==> p.value == TimeProp(r.value.value, r.value.error, true)
    ensures p.Err? ==> p.error == Rethrown(vType, value, r.error)
  {
    match r
    case Ok(t) => Ok(TimeProp(t.value, t.error, true))
    case Err(e) => Err(Rethrown(vType, value, e))
  }

  // ---------------------------------------------------------------------
  // The sun and moon snapshots

  /** The `date` argument of `getSunCalc` / `getMoonCalc`. */
  datatype DateArg = NoDate | GivenDate(date: JsDate) | DateText(text: string) | OtherArg

  /** The Date the snapshot is for, or None when no Date was supplied: a text
      counts when it parses to a valid Date; a Date object counts even when
      it is an Invalid Date. */
  function ResolveDateArg(arg: DateArg, e: Engine): (r: Option<JsDate>)
    ensures r.Some? <==> arg.GivenDate? || (arg.DateText? && e.parseDate(arg.text).Date?)
    ensures arg.GivenDate? ==> r == Some(arg.date)
    ensures arg.DateText? && r.Some? ==> r.value.Date?
  {
    match arg
    case GivenDate(d) => Some(d)
    case DateText(text) => if e.parseDate(text).Date? then Some(e.parseDate(text)) else None
    case _ => None
  }

  /** `Math.abs(now - ts) < 4000`; a NaN timestamp never matches. */
  predicate Debounced(clock: int, ts: Num) {
    ts.Fin? && -4000.0 < clock as real - ts.v < 4000.0
  }

  function NumAdd(x: Num, y: Num): Num {
    if x.NaN? || y.NaN? then NaN else Fin(x.v + y.v)
  }

  function NumSub(x: Num, y: Num): Num {
    if x.NaN? || y.NaN? then NaN else Fin(x.v - y.v)
  }

  /** The sun snapshot; the initial value `{ts: 0}` is the stub. */
  datatype SunCalc =
    | SunCalcStub(ts: Num)
    | SunCalc(ts: Num, lastUpdate: JsDate, latitude: Num, longitude: Num, angleType: string,
              azimuth: Num, altitude: Num, altitudeDegrees: Num, azimuthDegrees: Num,
              altitudeRadians: Num, azimuthRadians: Num, times: Option<SunTable>)

  /** The sun snapshot for `date`, without times. */
  function SunSnapshot(s: Site, angleType: string, date: JsDate): (r: SunCalc)
    ensures r.SunCalc? && r.ts == TimeValue(date) && r.lastUpdate == date && r.times.None?
    ensures r.latitude == s.latitude && r.longitude == s.longitude
    // "deg" selects the degree fields, anything else the radian fields
    ensures angleType == "deg" ==> r.azimuth == r.azimuthDegrees && r.altitude == r.altitudeDegrees
    ensures angleType != "deg" ==> r.azimuth == r.azimuthRadians && r.altitude == r.altitudeRadians
    ensures r.azimuthDegrees == NumAdd(Fin(180.0), s.rt.engine.radToDeg(r.azimuthRadians))
    // the radian fields are the ephemeris' position at `date`
    ensures var pos := s.eph.getPosition(date, s.latitude, s.longitude);
      && r.azimuthRadians == pos.azimuth && r.altitudeRadians == pos.altitude
      && r.altitudeDegrees == s.rt.engine.radToDeg(pos.altitude)
  {
    var pos := s.eph.getPosition(date, s.latitude, s.longitude);
    var azimuthDegrees := NumAdd(Fin(180.0), s.rt.engine.radToDeg(pos.azimuth));
    var altitudeDegrees := s.rt.engine.radToDeg(pos.altitude);
    SunCalc(TimeValue(date), date, s.latitude, s.longitude, angleType,
            if angleType == "deg" then azimuthDegrees else pos.azimuth,
            if angleType == "deg" then altitudeDegrees else pos.altitude,
            altitudeDegrees, azimuthDegrees, pos.altitude, pos.azimuth, None)
  }

  datatype Illumination = Illumination(angle: Num, fraction: Num, phase: PhaseEntry, zenithAngle: Num)

  /** The moon snapshot; the initial value `{ts: 0}` is the stub. */
  datatype MoonCalc =
    | MoonCalcStub(ts: Num)
    | MoonCalc(ts: Num, lastUpdate: JsDate, latitude: Num, longitude: Num, angleType: string,
               azimuth: Num, altitude: Num, distance: Num, parallacticAngle: Num,
               illumination: Illumination, times: Option<MoonTimes>)

  /** The moon snapshot for `date`, without times, referring to `entry`. */
  function MoonSnapshot(s: Site, angleType: string, date: JsDate, entry: PhaseEntry): (r: MoonCalc)
    ensures r.MoonCalc? && r.ts == TimeValue(date) && r.times.None?
    ensures r.illumination.phase == entry
    ensures r.illumination.fraction == s.eph.getMoonIllumination(date).fraction
    ensures r.lastUpdate == date && r.latitude == s.latitude && r.longitude == s.longitude
    ensures var pos := s.eph.getMoonPosition(date, s.latitude, s.longitude);
      r.distance == pos.distance
    // "deg" converts every angle to degrees, the azimuth measured from north
    ensures var pos := s.eph.getMoonPosition(date, s.latitude, s.longitude);
      var illum := s.eph.getMoonIllumination(date);
      var e := s.rt.engine;
      angleType == "deg" ==>
        && r.azimuth == NumAdd(Fin(180.0), e.radToDeg(pos.azimuth))
        && r.altitude == e.radToDeg(pos.altitude)
        && r.parallacticAngle == e.radToDeg(pos.parallacticAngle)
        && r.illumination.angle == e.radToDeg(illum.angle)
        && r.illumination.zenithAngle == e.radToDeg(NumSub(illum.angle, pos.parallacticAngle))
    // any other angle type keeps the ephemeris' radians
    ensures var pos := s.eph.getMoonPosition(date, s.latitude, s.longitude);
      var illum := s.eph.getMoonIllumination(date);
      angleType != "deg" ==>
        && r.azimuth == pos.azimuth && r.altitude == pos.altitude
        && r.parallacticAngle == pos.parallacticAngle
        && r.illumination.angle == illum.angle
        && r.illumination.zenithAngle == NumSub(illum.angle, pos.parallacticAngle)
  {
    var pos := s.eph.getMoonPosition(date, s.latitude, s.longitude);
    var illum := s.eph.getMoonIllumination(date);
    var deg := angleType == "deg";
    var e := s.rt.engine;
    MoonCalc(TimeValue(date), date, s.latitude, s.longitude, angleType,
             if deg then NumAdd(Fin(180.0), e.radToDeg(pos.azimuth)) else pos.azimuth,
             if deg then e.radToDeg(pos.altitude) else pos.altitude,
             pos.distance,
             if deg then e.radToDeg(pos.parallacticAngle) else pos.parallacticAngle,
             Illumination(
               if deg then e.radToDeg(illum.angle) else illum.angle,
               illum.fraction,
               entry,
               if deg then e.radToDeg(NumSub(illum.angle, pos.parallacticAngle))
               else NumSub(illum.angle, pos.parallacticAngle)),
             None)
  }

  // ---------------------------------------------------------------------
  // The configuration node

  class PositionConfig {
    const latitude: Num
    const longitude: Num
    const angleType: string
    const rt: Runtime
    const eph: Ephemeris
    /** The module-level catalogue, shared by every configuration node. */
    const moonPhases: seq<PhaseEntry>

    var sunTimesToday: SunTable
    var sunTimesTomorrow: SunTable
    var sunDayId: Option<int>
    var moonTimesToday: MoonTimes
    var moonTimesTomorrow: MoonTimes
    var moonDayId: Option<int>
    var lastSunCalc: SunCalc
    var lastMoonCalc: MoonCalc

    function Position(): Site {
      Site(rt, eph, latitude, longitude)
    }

    function SunCache(): DayCache<SunTable>
      reads this
    {
      DayCache(sunTimesToday, sunTimesTomorrow, sunDayId)
    }

    function MoonCache(): DayCache<MoonTimes>
      reads this
    {
      DayCache(moonTimesToday, moonTimesTomorrow, moonDayId)
    }

    /** The catalogue is the shared one and both moon tables carry both flags. */
    ghost predicate Valid()
      reads this
    {
      IsCatalogue(moonPhases) && FlagsNormalized(moonTimesToday) && FlagsNormalized(moonTimesTomorrow)
    }

    /** The constructor for a position that passes the coordinate check: it
        fills both caches for the clock's day and the day after. */
    constructor (latitude: Num, longitude: Num, angleType: string, rt: Runtime, eph: Ephemeris,
                 phases: seq<PhaseEntry>, clock: int)
      requires ValidPosition(latitude, longitude) && IsCatalogue(phases)
      ensures Valid()
      ensures this.latitude == latitude && this.longitude == longitude && this.angleType == angleType
      ensures this.rt == rt && this.eph == eph && moonPhases == phases
      ensures lastSunCalc == SunCalcStub(Fin(0.0)) && lastMoonCalc == MoonCalcStub(Fin(0.0))
      ensures SunCache() == DayCache(eph.getTimes(Date(clock), latitude, longitude),
                                     eph.getTimes(Date(AddDays(clock, 1)), latitude, longitude),
                                     Some(DayId(clock)))
      ensures MoonCache() == DayCache(NormalizeMoonFlags(eph.getMoonTimes(Date(clock), latitude, longitude)),
                                      NormalizeMoonFlags(eph.getMoonTimes(Date(AddDays(clock, 1)), latitude, longitude)),
                                      Some(DayId(clock)))
    {
      this.latitude, this.longitude, this.angleType := latitude, longitude, angleType;
      this.rt, this.eph, moonPhases := rt, eph, phases;
      lastSunCalc := SunCalcStub(Fin(0.0));
      lastMoonCalc := MoonCalcStub(Fin(0.0));
      var today := Date(clock);
      var dayId := DayIdOf(today);
      var tomorrow := Date(AddDays(clock, 1));
      sunTimesToday := eph.getTimes(today, latitude, longitude);
      sunTimesTomorrow := eph.getTimes(tomorrow, latitude, longitude);
      sunDayId := dayId;
      moonTimesToday := NormalizeMoonFlags(eph.getMoonTimes(today, latitude, longitude));
      moonTimesTomorrow := NormalizeMoonFlags(eph.getMoonTimes(tomorrow, latitude, longitude));
      moonDayId := dayId;
    }

    /** Construction: the constructor's refresh throws for a position that
        fails the coordinate check. */
    static method Create(latitude: Num, longitude: Num, angleType: string, rt: Runtime, eph: Ephemeris,
                         phases: seq<PhaseEntry>, clock: int) returns (r: Result<PositionConfig, Failure>)
      requires IsCatalogue(phases)
      ensures r.Err? <==> !ValidPosition(latitude, longitude)
      ensures r.Err? ==> r.error == InvalidCoordinates(CheckCoordinates(latitude, longitude).value)
      ensures r.Ok? ==> fresh(r.value) && r.value.Valid() && r.value.Position() == Site(rt, eph, latitude, longitude)
    {
      match CheckCoordinates(latitude, longitude)
      case Some(c) =>
        r := Err(InvalidCoordinates(c));
      case None =>
        var node := new PositionConfig(latitude, longitude, angleType, rt, eph, phases, clock);
        r := Ok(node);
    }

    /** `_sunTimesRefresh`. */
    method SunTimesRefresh(today: JsDate, tomorrow: JsDate, dayId: Option<int>) returns (r: Outcome<Failure>)
      requires Valid()
      modifies this
      ensures Valid() && r == CheckSite(Position())
      ensures r.Fail? ==> SunCache() == old(SunCache())
      ensures r.Pass? ==> SunCache() == DayCache(eph.getTimes(today, latitude, longitude),
                                                 eph.getTimes(tomorrow, latitude, longitude), dayId)
      ensures MoonCache() == old(MoonCache())
      ensures lastSunCalc == old(lastSunCalc) && lastMoonCalc == old(lastMoonCalc)
    {
      r := CheckSite(Position());
      if r.Fail? {
        return;
      }
      sunTimesToday := eph.getTimes(today, latitude, longitude);
      sunTimesTomorrow := eph.getTimes(tomorrow, latitude, longitude);
      sunDayId := dayId;
    }

    /** `_sunTimesCheck(today)`: `today || new Date()`; the tables are
        recomputed for that date and for the clock's tomorrow exactly when
        its day id differs from the stored one. */
    method SunTimesCheck(today: Option<JsDate>, clock: int) returns (r: Result<CheckInfo, Failure>)
      requires Valid()
      modifies this
      ensures Valid()
      ensures var dateb := today.GetOr(Date(clock));
        var c := CheckDay(old(SunCache()), DayIdOf(dateb), CheckSite(Position()),
                          eph.getTimes(dateb, latitude, longitude),
                          eph.getTimes(Date(AddDays(clock, 1)), latitude, longitude));
        && (c.Ok? ==> SunCache() == c.value && r == Ok(CheckInfo(dateb, DayIdOf(dateb))))
        && (c.Err? ==> SunCache() == old(SunCache()) && r == Err(c.error))
      ensures MoonCache() == old(MoonCache())
      ensures lastSunCalc == old(lastSunCalc) && lastMoonCalc == old(lastMoonCalc)
    {
      var dateb := today.GetOr(Date(clock));
      var dayId := DayIdOf(dateb);
      if NeedsRefresh(sunDayId, dayId) {
        var tomorrow := Date(AddDays(clock, 1));
        var o := SunTimesRefresh(dateb, tomorrow, dayId);
        if o.Fail? {
          return Err(o.error);
        }
      }
      r := Ok(CheckInfo(dateb, dayId));
    }

    /** `_moonTimesRefresh`: both tables get their missing or false flags set
        to false. */
    method MoonTimesRefresh(today: JsDate, tomorrow: JsDate, dayId: Option<int>) returns (r: Outcome<Failure>)
      requires Valid()
      modifies this
      ensures Valid() && r == CheckSite(Position())
      ensures r.Fail? ==> MoonCache() == old(MoonCache())
      ensures r.Pass? ==>
        MoonCache() == DayCache(NormalizeMoonFlags(eph.getMoonTimes(today, latitude, longitude)),
                                NormalizeMoonFlags(eph.getMoonTimes(tomorrow, latitude, longitude)), dayId)
      ensures SunCache() == old(SunCache())
      ensures lastSunCalc == old(lastSunCalc) && lastMoonCalc == old(lastMoonCalc)
    {
      r := CheckSite(Position());
      if r.Fail? {
        return;
      }
      moonTimesToday := eph.getMoonTimes(today, latitude, longitude);
      if moonTimesToday.alwaysUp != Some(true) {
        moonTimesToday := moonTimesToday.(alwaysUp := Some(false));
      }
      if moonTimesToday.alwaysDown != Some(true) {
        moonTimesToday := moonTimesToday.(alwaysDown := Some(false));
      }
      moonTimesTomorrow := eph.getMoonTimes(tomorrow, latitude, longitude);
      if moonTimesTomorrow.alwaysUp != Some(true) {
        moonTimesTomorrow := moonTimesTomorrow.(alwaysUp := Some(false));
      }
      if moonTimesTomorrow.alwaysDown != Some(true) {
        moonTimesTomorrow := moonTimesTomorrow.(alwaysDown := Some(false));
      }
      moonDayId := dayId;
    }

    /** `_moonTimesCheck(today)`, the moon counterpart of SunTimesCheck. */
    method MoonTimesCheck(today: Option<JsDate>, clock: int) returns (r: Result<CheckInfo, Failure>)
      requires Valid()
      modifies this
      ensures Valid()
      ensures var dateb := today.GetOr(Date(clock));
        var c := CheckDay(old(MoonCache()), DayIdOf(dateb), CheckSite(Position()),
                          NormalizeMoonFlags(eph.getMoonTimes(dateb, latitude, longitude)),
                          NormalizeMoonFlags(eph.getMoonTimes(Date(AddDays(clock, 1)), latitude, longitude)));
        && (c.Ok? ==> MoonCache() == c.value && r == Ok(CheckInfo(dateb, DayIdOf(dateb))))
        && (c.Err? ==> MoonCache() == old(MoonCache()) && r == Err(c.error))
      ensures SunCache() == old(SunCache())
      ensures lastSunCalc == old(lastSunCalc) && lastMoonCalc == old(lastMoonCalc)
    {
      var dateb := today.GetOr(Date(clock));
      var dayId := DayIdOf(dateb);
      if NeedsRefresh(moonDayId, dayId) {
        var tomorrow := Date(AddDays(clock, 1));
        var o := MoonTimesRefresh(dateb, tomorrow, dayId);
        if o.Fail? {
          return Err(o.error);
        }
      }
      r := Ok(CheckInfo(dateb, dayId));
    }

    /** `getSunTime(now, name, offset, multiplier, next, days)`. */
    method GetSunTime(now: JsDate, name: string, offset: Num, multiplier: Num, next: Num,
                      days: Option<string>, clock: int) returns (r: Result<TimeResult, Failure>)
      requires Valid()
      modifies this
      ensures Valid()
      ensures var c := CheckDay(old(SunCache()), DayIdOf(now), CheckSite(Position()),
                                eph.getTimes(now, latitude, longitude),
                                eph.getTimes(Date(AddDays(clock, 1)), latitude, longitude));
        && (c.Err? ==> SunCache() == old(SunCache()) && r == Err(c.error))
        && (c.Ok? ==>
              SunCache() == c.value &&
              r == ResolveSunTime(Position(), sunTimesToday, sunTimesTomorrow, CheckInfo(now, DayIdOf(now)),
                                  clock, now, name, offset, multiplier, next, days))
      ensures MoonCache() == old(MoonCache())
      ensures lastSunCalc == old(lastSunCalc) && lastMoonCalc == old(lastMoonCalc)
    {
      var check :- SunTimesCheck(Some(now), clock);
      var value := SunEntry(sunTimesToday, name, InvalidDate);
      value := rt.addOffset(value, offset, multiplier);
      if RollRequested(next, value, now) {
        if next == Fin(1.0) {
          value := SunEntry(sunTimesTomorrow, name, value);
        } else if BeyondTomorrow(next) {
          var ok := CheckSite(Position());
          if ok.Fail? {
            return Err(ok.error);
          }
          var table := eph.getTimes(DaysAheadOfNow(clock, next), latitude, longitude);
          value := SunEntry(table, name, value);
        }
        value := rt.addOffset(value, offset, multiplier);
      }
      var error: Option<TimeError> := None;
      if DaysFilterActive(days) {
        var dayx := rt.calcDayOffset(days.value, rt.localWeekday(value));
        if dayx > 0 {
          var ok := CheckSite(Position());
          if ok.Fail? {
            return Err(ok.error);
          }
          var table := eph.getTimes(AddDaysTo(value, dayx), latitude, longitude);
          value := SunEntry(table, name, value);
          value := rt.addOffset(value, offset, multiplier);
        } else if dayx < 0 {
          error := Some(NoValidWeekday);
        }
      }
      r := Ok(TimeResult(check, value, error));
    }

    /** `getMoonTime(now, name, offset, multiplier, next, days)`. */
    method GetMoonTime(now: JsDate, name: string, offset: Num, multiplier: Num, next: Num,
                       days: Option<string>, clock: int) returns (r: Result<TimeResult, Failure>)
      requires Valid()
      modifies this
      ensures Valid()
      ensures var c := CheckDay(old(MoonCache()), DayIdOf(now), CheckSite(Position()),
                                NormalizeMoonFlags(eph.getMoonTimes(now, latitude, longitude)),
                                NormalizeMoonFlags(eph.getMoonTimes(Date(AddDays(clock, 1)), latitude, longitude)));
        && (c.Err? ==> MoonCache() == old(MoonCache()) && r == Err(c.error))
        && (c.Ok? ==>
              MoonCache() == c.value &&
              r == ResolveMoonTime(Position(), moonTimesToday, moonTimesTomorrow, CheckInfo(now, DayIdOf(now)),
                                   clock, now, name, offset, multiplier, next, days))
      ensures SunCache() == old(SunCache())
      ensures lastSunCalc == old(lastSunCalc) && lastMoonCalc == old(lastMoonCalc)
    {
      var check :- MoonTimesCheck(Some(now), clock);
      var value := rt.addOffset(MoonEntry(moonTimesToday, name), offset, multiplier);
      if RollRequested(next, value, now) {
        if next == Fin(1.0) {
          value := rt.addOffset(MoonEntry(moonTimesTomorrow, name), offset, multiplier);
        } else if BeyondTomorrow(next) {
          var ok := CheckSite(Position());
          if ok.Fail? {
            return Err(ok.error);
          }
          var times := eph.getMoonTimes(DaysAheadOfNow(clock, next), latitude, longitude);
          value := rt.addOffset(MoonEntry(times, name), offset, multiplier);
        }
      }
      var error: Option<TimeError> := None;
      if DaysFilterActive(days) {
        var dayx := rt.calcDayOffset(days.value, rt.localWeekday(value));
        if dayx > 0 {
          var ok := CheckSite(Position());
          if ok.Fail? {
            return Err(ok.error);
          }
          var times := eph.getMoonTimes(Date(AddDays(clock, dayx)), latitude, longitude);
          value := rt.addOffset(MoonEntry(times, name), offset, multiplier);
        } else if dayx < 0 {
          error := Some(NoValidWeekday);
        }
      }
      if value.InvalidDate? {
        error := Some(NoValidMoonTime(name));
      }
      r := Ok(TimeResult(check, value, error));
    }

    /** After the "pdsTime" branch: the sun cache is what the day check made
        it (unchanged when the check throws), the moon cache is untouched, and
        the result is the resolved sun event or the rethrown check failure. */
    twostate predicate SunEventDone(clock: int, vType: string, value: JsValue, offsetX: Num, multiplier: Num,
                                    next: Num, days: Option<string>, new r: Result<TimeProp, Failure>)
      reads this
    {
      var c := CheckDay(old(SunCache()), DayIdOf(Date(clock)), CheckSite(Position()),
                         eph.getTimes(Date(clock), latitude, longitude),
                         eph.getTimes(Date(AddDays(clock, 1)), latitude, longitude));
      && (c.Err? ==> r == Err(Rethrown(vType, value, c.error)) && SunCache() == old(SunCache()))
      && (c.Ok? ==> SunCache() == c.value)
      && MoonCache() == old(MoonCache())
      && (c.Ok? ==> r == EventTimeProp(vType, value,
           ResolveSunTime(Position(), sunTimesToday, sunTimesTomorrow, CheckInfo(Date(clock), DayIdOf(Date(clock))),
                          clock, Date(clock), ToString(value, rt.engine), offsetX, multiplier, next, days)))
    }

    /** After the "pdmTime" branch, the moon counterpart of `SunEventDone`. */
    twostate predicate MoonEventDone(clock: int, vType: string, value: JsValue, offsetX: Num, multiplier: Num,
                                     next: Num, days: Option<string>, new r: Result<TimeProp, Failure>)
      reads this
    {
      var c := CheckDay(old(MoonCache()), DayIdOf(Date(clock)), CheckSite(Position()),
                         NormalizeMoonFlags(eph.getMoonTimes(Date(clock), latitude, longitude)),
                         NormalizeMoonFlags(eph.getMoonTimes(Date(AddDays(clock, 1)), latitude, longitude)));
      && (c.Err? ==> r == Err(Rethrown(vType, value, c.error)) && MoonCache() == old(MoonCache()))
      && (c.Ok? ==> MoonCache() == c.value)
      && SunCache() == old(SunCache())
      && (c.Ok? ==> r == EventTimeProp(vType, value,
           ResolveMoonTime(Position(), moonTimesToday, moonTimesTomorrow, CheckInfo(Date(clock), DayIdOf(Date(clock))),
                           clock, Date(clock), ToString(value, rt.engine), offsetX, multiplier, next, days)))
    }

    /** `getTimeProp`: the value is never null; a failure of any branch is
        rethrown with the original attached. */
    method GetTimeProp(clock: int, msg: Msg, vType: string, value: JsValue, offset: JsValue,
                       offsetType: Option<string>, multiplier: Num, next: Num, days: Option<string>)
      returns (r: Result<TimeProp, Failure>)
      requires Valid()
      modifies this
      ensures Valid()
      ensures r.Err? ==> r.error.NotEvaluablePropertyAdd? && r.error.timeType == vType && r.error.timeValue == value
      ensures var d := DispatchTimeProp(rt, msg, clock, vType, value, offset, offsetType, multiplier, next, days);
        && (d.Err? ==> r == Err(Rethrown(vType, value, d.error)) && unchanged(this))
        && (d.Ok? && d.value.Computed? ==>
              r == Ok(CompleteTimeProp(clock, vType, value, d.value.value, d.value.error, d.value.fix))
              && unchanged(this))
        && (d.Ok? && d.value.SunEvent? ==>
              SunEventDone(clock, vType, value, d.value.offset, multiplier, next, days, r))
        && (d.Ok? && d.value.MoonEvent? ==>
              MoonEventDone(clock, vType, value, d.value.offset, multiplier, next, days, r))
      ensures lastSunCalc == old(lastSunCalc) && lastMoonCalc == old(lastMoonCalc)
    {
      var d := DispatchTimeProp(rt, msg, clock, vType, value, offset, offsetType, multiplier, next, days);
      if d.Err? {
        return Err(Rethrown(vType, value, d.error));
      }
      match d.value
      case Computed(v, error, fix) =>
        r := Ok(CompleteTimeProp(clock, vType, value, v, error, fix));
      case SunEvent(offsetX) =>
        r := SunEventTimeProp(clock, vType, value, offsetX, multiplier, next, days);
      case MoonEvent(offsetX) =>
        r := MoonEventTimeProp(clock, vType, value, offsetX, multiplier, next, days);
    }

    /** The "pdsTime" branch of `getTimeProp`: the sun event for now. */
    method SunEventTimeProp(clock: int, vType: string, value: JsValue, offsetX: Num, multiplier: Num,
                            next: Num, days: Option<string>) returns (r: Result<TimeProp, Failure>)
      requires Valid()
      modifies this
      ensures Valid()
      ensures SunEventDone(clock, vType, value, offsetX, multiplier, next, days, r)
      ensures r.Err? ==> r.error.NotEvaluablePropertyAdd? && r.error.timeType == vType && r.error.timeValue == value
      ensures lastSunCalc == old(lastSunCalc) && lastMoonCalc == old(lastMoonCalc)
    {
      var t := GetSunTime(Date(clock), ToString(value, rt.engine), offsetX, multiplier, next, days, clock);
      r := EventTimeProp(vType, value, t);
    }

    /** The "pdmTime" branch of `getTimeProp`: the moon event for now. */
    method MoonEventTimeProp(clock: int, vType: string, value: JsValue, offsetX: Num, multiplier: Num,
                             next: Num, days: Option<string>) returns (r: Result<TimeProp, Failure>)
      requires Valid()
      modifies this
      ensures Valid()
      ensures MoonEventDone(clock, vType, value, offsetX, multiplier, next, days, r)
      ensures r.Err? ==> r.error.NotEvaluablePropertyAdd? && r.error.timeType == vType && r.error.timeValue == value
      ensures lastSunCalc == old(lastSunCalc) && lastMoonCalc == old(lastMoonCalc)
    {
      var t := GetMoonTime(Date(clock), ToString(value, rt.engine), offsetX, multiplier, next, days, clock);
      r := EventTimeProp(vType, value, t);
    }

    /** `getSunCalc(date, noTimes)`. Without a Date the snapshot is for the
        clock's now, and the previous one is returned while it is less than
        4000 ms old. Only a snapshot with times is remembered. */
    method GetSunCalc(date: DateArg, noTimes: bool, clock: int) returns (r: Result<SunCalc, Failure>)
      requires Valid()
      modifies this
      ensures Valid()
      ensures var given := ResolveDateArg(date, rt.engine);
        given.None? && Debounced(clock, old(lastSunCalc).ts) ==>
          r == Ok(old(lastSunCalc)) && SunCache() == old(SunCache())
      ensures var given := ResolveDateArg(date, rt.engine);
        var snap := SunSnapshot(Position(), angleType, given.GetOr(Date(clock)));
        !(given.None? && Debounced(clock, old(lastSunCalc).ts)) ==>
          if noTimes then r == Ok(snap) && SunCache() == old(SunCache())
          else
            var c := CheckDay(old(SunCache()), DayIdOf(Date(clock)), CheckSite(Position()),
                              eph.getTimes(Date(clock), latitude, longitude),
                              eph.getTimes(Date(AddDays(clock, 1)), latitude, longitude));
            && (c.Err? ==> r == Err(c.error) && SunCache() == old(SunCache()))
            && (c.Ok? ==> SunCache() == c.value && r == Ok(snap.(times := Some(c.value.today))) && lastSunCalc == r.value)
      ensures lastSunCalc != old(lastSunCalc) ==> !noTimes && r.Ok? && lastSunCalc == r.value
      ensures MoonCache() == old(MoonCache()) && lastMoonCalc == old(lastMoonCalc)
    {
      var given := ResolveDateArg(date, rt.engine);
      var d: JsDate;
      if given.None? {
        d := Date(clock);
        if Debounced(clock, lastSunCalc.ts) {
          return Ok(lastSunCalc);
        }
      } else {
        d := given.value;
      }
      var result := SunSnapshot(Position(), angleType, d);
      if noTimes {
        return Ok(result);
      }
      var check := SunTimesCheck(None, clock);
      if check.Err? {
        return Err(check.error);
      }
      result := result.(times := Some(sunTimesToday));
      lastSunCalc := result;
      r := Ok(result);
    }

    /** `getMoonCalc(date, noTimes)`. Without a Date it throws a TypeError
        (the debounce calls the remembered snapshot as a function). With one,
        the catalogue entry of the phase is updated in place and becomes the
        snapshot's phase; the times come from the moon table after a check
        of the sun cache. */
    method GetMoonCalc(date: DateArg, noTimes: bool, clock: int) returns (r: Result<MoonCalc, Failure>)
      requires Valid()
      modifies this, moonPhases
      ensures Valid()
      ensures var given := ResolveDateArg(date, rt.engine);
        given.None? ==>
          && r == Err(TypeError("this.lastMoonCalc is not a function"))
          && unchanged(this) && forall j :: 0 <= j < 8 ==> unchanged(moonPhases[j])
      ensures var given := ResolveDateArg(date, rt.engine);
        given.Some? ==>
          var illum := eph.getMoonIllumination(given.value);
          var k := PhaseOf(illum.phase);
          && moonPhases[k].value == Some(illum.phase)
          && moonPhases[k].angle == Some(PhaseAngle(illum.phase, angleType, rt.engine))
          && (forall j :: 0 <= j < 8 && j != k ==>
                moonPhases[j].value == old(moonPhases[j].value) && moonPhases[j].angle == old(moonPhases[j].angle))
          && (r.Ok? ==> r.value.MoonCalc? && r.value.illumination.phase == moonPhases[k])
      ensures var given := ResolveDateArg(date, rt.engine);
        var snap := MoonSnapshot(Position(), angleType, given.GetOr(Date(clock)), moonPhases[PhaseOf(eph.getMoonIllumination(given.GetOr(Date(clock))).phase)]);
        given.Some? ==>
          if noTimes then r == Ok(snap) && SunCache() == old(SunCache()) && lastMoonCalc == old(lastMoonCalc)
          else
            var c := CheckDay(old(SunCache()), DayIdOf(Date(clock)), CheckSite(Position()),
                              eph.getTimes(Date(clock), latitude, longitude),
                              eph.getTimes(Date(AddDays(clock, 1)), latitude, longitude));
            && (c.Err? ==> r == Err(c.error) && SunCache() == old(SunCache()) && lastMoonCalc == old(lastMoonCalc))
            && (c.Ok? ==> SunCache() == c.value && r == Ok(snap.(times := Some(moonTimesToday))) && lastMoonCalc == r.value)
      ensures MoonCache() == old(MoonCache()) && lastSunCalc == old(lastSunCalc)
    {
      var given := ResolveDateArg(date, rt.engine);
      if given.None? {
        return Err(TypeError("this.lastMoonCalc is not a function"));
      }
      var d := given.value;
      var illum := eph.getMoonIllumination(d);
      var k := PhaseOf(illum.phase);
      var entry := moonPhases[k];
      forall j | 0 <= j < 8 && j != k
        ensures moonPhases[j] != entry
      {
        CatalogueEntriesDistinct(moonPhases, j, k);
      }
      var result := MoonSnapshot(Position(), angleType, d, entry);
      entry.value := Some(illum.phase);
      entry.angle := Some(PhaseAngle(illum.phase, angleType, rt.engine));
      if noTimes {
        return Ok(result);
      }
      var check := SunTimesCheck(None, clock);
      if check.Err? {
        return Err(check.error);
      }
      // the times are the moon table itself: its flags are patched in place,
      // which changes nothing as a refresh has already patched them
      NormalizeMoonFlagsIdempotent(moonTimesToday);
      if moonTimesToday.alwaysUp != Some(true) {
        moonTimesToday := moonTimesToday.(alwaysUp := Some(false));
      }
      if moonTimesToday.alwaysDown != Some(true) {
        moonTimesToday := moonTimesToday.(alwaysDown := Some(false));
      }
      result := result.(times := Some(moonTimesToday));
      lastMoonCalc := result;
      r := Ok(result);
    }
  }
}
