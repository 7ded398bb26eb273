/** What the configuration node calls but does not implement: the ephemeris
    library (suncalc.js), the date/time helper library (dateTimeHelper.js),
    Node-RED's property evaluation, and the engine's floating-point built-ins.
    Each is a function value supplied by the caller; the model states no
    property of them beyond their types. */
module Collaborators {
  import opened Wrappers
  import opened Js

  /** `sunCalc.getTimes(...)`: sun event name to the event's `value` Date. */
  type SunTable = map<string, JsDate>

  /** `sunCalc.getMoonTimes(...)`: rise/set Dates plus the two flags, which the
      library may leave out (None). */
  datatype MoonTimes = MoonTimes(
    events: map<string, JsDate>,
    alwaysUp: Option<bool>,
    alwaysDown: Option<bool>)

  datatype SunPosition = SunPosition(azimuth: Num, altitude: Num)

  datatype MoonPosition = MoonPosition(
    azimuth: Num, altitude: Num, distance: Num, parallacticAngle: Num)

  datatype MoonIllumination = MoonIllumination(fraction: Num, phase: Num, angle: Num)

  /** The ephemeris library. */
  datatype Ephemeris = Ephemeris(
    getTimes: (JsDate, Num, Num) -> SunTable,
    getMoonTimes: (JsDate, Num, Num) -> MoonTimes,
    getPosition: (JsDate, Num, Num) -> SunPosition,
    getMoonPosition: (JsDate, Num, Num) -> MoonPosition,
    getMoonIllumination: JsDate -> MoonIllumination)

  /** The date/time helper library, Node-RED's property evaluation and the
      engine built-ins. */
  datatype Runtime = Runtime(
    engine: Engine,
    // RED.util.evaluateNodeProperty(value, type, node, msg): a value or a thrown message
    evaluateNodeProperty: (JsValue, string, Msg) -> Result<JsValue, string>,
    // hlp.addOffset(date, offset, multiplier)
    addOffset: (JsDate, Num, Num) -> JsDate,
    // date.getDay(): the local weekday, NaN for an Invalid Date
    localWeekday: JsDate -> Num,
    // date.getDate(): the local day of month
    localDayOfMonth: JsDate -> Num,
    // hlp.calcDayOffset(days, weekday): days to the next allowed weekday, negative if none
    calcDayOffset: (string, Num) -> int,
    // hlp.normalizeDate(date, offset, multiplier, next, days); None is null
    normalizeDate: (JsDate, Num, Num, Num, Option<string>) -> Option<JsDate>,
    // hlp.getTimeOfText(text, now); None is null
    getTimeOfText: (string, int) -> Option<JsDate>,
    // hlp.getDateOfText(value), which may throw
    getDateOfText: JsValue -> Result<JsDate, string>,
    // hlp.getSpecialDayOfMonth(year, month, value) for the current local month; None is null
    getSpecialDayOfMonth: (int, JsValue) -> Option<JsDate>,
    // hlp.isTrue / hlp.isFalse
    isTrue: JsValue -> bool,
    isFalse: JsValue -> bool,
    // hlp.checkLimits(azimuth, low, high); None is undefined
    checkLimits: (Num, Option<Num>, Option<Num>) -> bool)
}
