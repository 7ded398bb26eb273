/** The `input` handler of the `sun-position` node: the azimuth guard, the
    start and end times, `sunInSky`, the per-rule azimuth limit checks and
    the node status, together with its helper `getNumProp`.

    The handler's calls into the configuration node whose signatures do not
    match the configuration node's own methods (`getSunCalc` with five
    arguments, `getTimeProp` with an options object, `toTimeString`,
    `toDateTimeString`) are given to it as their results. */
module SunPosition {
  import opened Wrappers
  import opened Js
  import opened Collaborators
  import opened Properties

  /** One configured azimuth range. */
  datatype Rule = Rule(valueLowType: Option<string>, valueLow: JsValue,
                       valueHighType: Option<string>, valueHigh: JsValue)

  /** `getNumProp`: undefined (None) for type "none" and whenever
      `getFloatProp` throws; NaN is possible for an untyped non-number. */
  function GetNumProp(rt: Runtime, msg: Msg, vType: Option<string>, value: JsValue): (r: Option<Num>)
    ensures vType == Some("none") ==> r.None?
    ensures vType != Some("none") ==> (r.None? <==> GetFloatProp(rt, msg, vType, value, Fin(0.0)).Err?)
    ensures r.Some? ==> r.value == GetFloatProp(rt, msg, vType, value, Fin(0.0)).value
    ensures r == Some(NaN) ==> IsBlankType(vType)
  {
    if vType == Some("none") then None
    else
      match GetFloatProp(rt, msg, vType, value, Fin(0.0))
      case Ok(n) => Some(n)
      case Err(_) => None
  }

  /** `hlp.checkLimits(azimuth, low, high)` for one rule. */
  function RuleCheck(rt: Runtime, msg: Msg, azimuth: Num, rule: Rule): bool {
    rt.checkLimits(azimuth,
                   GetNumProp(rt, msg, rule.valueLowType, rule.valueLow),
                   GetNumProp(rt, msg, rule.valueHighType, rule.valueHigh))
  }

  /** `node.azimuthPos[i] !== chk`: an index the previous list does not have
      reads as undefined, which differs from every check result. */
  predicate Changed(prev: seq<bool>, i: int, chk: bool) {
    !(0 <= i < |prev| && prev[i] == chk)
  }

  /** The message sent on the output of a rule whose check is true. */
  datatype RulePort = RulePort(sunPos: bool, posChanged: bool, azimuth: Num)

  /** The rule loop. `ports[i + 1]` is the output of rule i; `ports[0]`,
      the position message, is not written here. `posChanged` starts false
      and is only ever and-ed, so it stays false. */
  method RuleLoop(rt: Runtime, msg: Msg, azimuth: Num, rules: seq<Rule>, prev: seq<bool>)
    returns (pos: seq<bool>, posChanged: bool, ports: seq<Option<RulePort>>)
    ensures |pos| == |rules|
    ensures forall i :: 0 <= i < |rules| ==> pos[i] == RuleCheck(rt, msg, azimuth, rules[i])
    ensures !posChanged
    ensures |ports| == |rules| + 1 && ports[0].None?
    ensures forall i :: 0 <= i < |rules| ==> (ports[i + 1].Some? <==> pos[i])
    ensures forall i :: 0 <= i < |rules| && pos[i] ==>
      ports[i + 1] == Some(RulePort(true, Changed(prev, i, true), azimuth))
  {
    var out := new Option<RulePort>[|rules| + 1](_ => None);
    pos := [];
    posChanged := false;
    for i := 0 to |rules|
      invariant |pos| == i
      invariant forall j :: 0 <= j < i ==> pos[j] == RuleCheck(rt, msg, azimuth, rules[j])
      invariant !posChanged
      invariant out[0].None?
      invariant forall j :: 0 <= j < i ==> (out[j + 1].Some? <==> pos[j])
      invariant forall j :: 0 <= j < i && pos[j] ==>
        out[j + 1] == Some(RulePort(true, Changed(prev, j, true), azimuth))
      invariant forall j :: i < j <= |rules| ==> out[j].None?
    {
      var rule := rules[i];
      var low := GetNumProp(rt, msg, rule.valueLowType, rule.valueLow);
      var high := GetNumProp(rt, msg, rule.valueHighType, rule.valueHigh);
      var chk := rt.checkLimits(azimuth, low, high);
      var chg := Changed(prev, i, chk);
      pos := pos + [chk];
      posChanged := posChanged && chg;
      if chk {
        out[i + 1] := Some(RulePort(chk, chg, azimuth));
      }
    }
    ports := out[..];
  }

  // ---------------------------------------------------------------------
  // Start and end times, sunInSky and the status

  /** What `getSunCalc` returned for the position message. */
  datatype SunPayload = SunPayload(azimuth: Num, altitude: Num, lastUpdate: Option<JsDate>)

  /** What `getTimeProp` returned for the start or end time. */
  datatype TimeOutcome = TimeOutcome(value: JsDate, error: Option<string>)

  predicate ErrorSet(t: TimeOutcome) {
    t.error.Some? && t.error.value != ""
  }

  /** The time written to the payload: `value.getTime()`, and nothing when
      the time has an error or its type is "none". */
  function RecordedTime(timeType: string, t: TimeOutcome): (r: Option<Num>)
    ensures r.Some? <==> timeType != "none" && !ErrorSet(t)
    ensures r.Some? ==> r.value == TimeValue(t.value)
  {
    if timeType != "none" && !ErrorSet(t) then Some(TimeValue(t.value)) else None
  }

  /** `errorStatus`: the end time's message replaces the start time's. */
  function ErrorStatus(startType: string, start: TimeOutcome, endType: string, end: TimeOutcome): (r: string)
    ensures r == "" <==>
      (startType == "none" || RecordedTime(startType, start).Some?) &&
      (endType == "none" || RecordedTime(endType, end).Some?)
    ensures endType != "none" && ErrorSet(end) ==> r == "could not evaluate end time"
    ensures r == "could not evaluate start time" ==> startType != "none" && ErrorSet(start)
  {
    var s := if startType != "none" && ErrorSet(start) then "could not evaluate start time" else "";
    if endType != "none" && ErrorSet(end) then "could not evaluate end time" else s
  }

  /** The outcome of a time whose evaluation threw, where the handler reads
      it only when it did not. */
  function Evaluated(t: Result<TimeOutcome, string>): TimeOutcome {
    if t.Ok? then t.value else TimeOutcome(InvalidDate, None)
  }

  /** `sunInSky`: set only when both times were recorded and are truthy, and
      then true exactly when now lies strictly between them. */
  function SunInSky(start: Option<Num>, end: Option<Num>, now: JsDate): (r: Option<bool>)
    ensures r.Some? <==> start.Some? && NumTruthy(start.value) && end.Some? && NumTruthy(end.value)
    ensures r == Some(true) <==>
      && start.Some? && NumTruthy(start.value) && end.Some? && NumTruthy(end.value)
      && now.Date? && start.value.v < now.ms as real < end.value.v
  {
    if start.Some? && NumTruthy(start.value) && end.Some? && NumTruthy(end.value) then
      Some(now.Date? && now.ms as real > start.value.v && now.ms as real < end.value.v)
    else None
  }

  /** The position message's payload after the handler. */
  datatype Payload = Payload(
    azimuth: Num, altitude: Num, lastUpdate: Option<JsDate>,
    pos: seq<bool>, posChanged: bool,
    startTime: Option<Num>, endTime: Option<Num>, sunInSky: Option<bool>)

  /** The node status. */
  datatype Status =
    | ErrorDot(text: string)                          // red dot
    | SunInSkyDot(startTime: Num, endTime: Num)       // yellow dot, 'start - end'
    | SunDownDot(startTime: Num, endTime: Num)        // blue dot, 'start - end'
    | LastUpdateDot(azimuth: Option<Num>, altitude: Option<Num>, lastUpdate: JsDate)
                                                      // grey dot; None prints '?'
    | NoDataDot                                       // red dot, 'no Data loaded!'

  /** Both start and end time were recorded and are truthy. */
  predicate BothTimes(p: Payload) {
    p.startTime.Some? && NumTruthy(p.startTime.value) && p.endTime.Some? && NumTruthy(p.endTime.value)
  }

  function StatusOf(errorStatus: string, p: Payload): (r: Status)
    ensures errorStatus != "" <==> r == ErrorDot(errorStatus)
    ensures r.SunInSkyDot? || r.SunDownDot? <==> errorStatus == "" && BothTimes(p)
    ensures r.SunInSkyDot? ==> p.sunInSky == Some(true)
    ensures r.SunDownDot? ==> p.sunInSky != Some(true)
    ensures r == NoDataDot <==> errorStatus == "" && !BothTimes(p) && p.lastUpdate.None?
  {
    if errorStatus != "" then ErrorDot(errorStatus)
    else if BothTimes(p) then
      if p.sunInSky == Some(true) then SunInSkyDot(p.startTime.value, p.endTime.value)
      else SunDownDot(p.startTime.value, p.endTime.value)
    else if p.lastUpdate.Some? then
      LastUpdateDot(if NumTruthy(p.azimuth) then Some(p.azimuth) else None,
                    if NumTruthy(p.altitude) then Some(p.altitude) else None,
                    p.lastUpdate.value)
    else NoDataDot
  }

  /** For a payload whose `sunInSky` was derived from its own times, the
      yellow status shows exactly when no time failed and now lies strictly
      between start and end. */
  lemma StatusShowsSunInSky(errorStatus: string, p: Payload, now: JsDate)
    requires p.sunInSky == SunInSky(p.startTime, p.endTime, now)
    ensures StatusOf(errorStatus, p).SunInSkyDot? <==>
      && errorStatus == "" && BothTimes(p)
      && now.Date? && p.startTime.value.v < now.ms as real < p.endTime.value.v
  {
  }

  /** How one input message ends. */
  datatype InputOutcome =
    | NotConfigured                       // no configuration node: status and done with an error
    | AzimuthMissing(sun: SunPayload)     // only the position message; done('Azimuth could not calculated!')
    | Sent(payload: Payload, ports: seq<Option<RulePort>>, status: Status)
    | Failed(message: string)             // status 'internal error: <message>'

  class SunPositionNode {
    const rules: seq<Rule>
    const startType: string
    const endType: string
    /** Whether the configuration node was found. */
    const configured: bool
    /** The previous check results; initially `{}`, which has no indices. */
    var azimuthPos: seq<bool>

    constructor (rules: seq<Rule>, startType: string, endType: string, configured: bool)
      ensures this.rules == rules && this.startType == startType && this.endType == endType
      ensures this.configured == configured && azimuthPos == []
    {
      this.rules, this.startType, this.endType, this.configured := rules, startType, endType, configured;
      azimuthPos := [];
    }

    /** The `input` handler for a message, given what the configuration node
        returns for it (a thrown error as Err). */
    method OnInput(rt: Runtime, msg: Msg, now: JsDate, sunCalc: Result<SunPayload, string>,
                   start: Result<TimeOutcome, string>, end: Result<TimeOutcome, string>)
      returns (out: InputOutcome)
      modifies this
      ensures !out.Sent? ==> azimuthPos == old(azimuthPos)
      ensures !configured ==> out == NotConfigured
      ensures configured && sunCalc.Err? ==> out == Failed(sunCalc.error)
      // a falsy azimuth, 0 included, ends the handler before any rule is checked
      ensures configured && sunCalc.Ok? && !NumTruthy(sunCalc.value.azimuth) ==> out == AzimuthMissing(sunCalc.value)
      ensures configured && sunCalc.Ok? && NumTruthy(sunCalc.value.azimuth) ==>
        if startType != "none" && start.Err? then out == Failed(start.error)
        else if endType != "none" && end.Err? then out == Failed(end.error)
        else out.Sent?
      ensures out.Sent? ==>
        var p := out.payload;
        && sunCalc.Ok? && p.azimuth == sunCalc.value.azimuth
        && p.altitude == sunCalc.value.altitude && p.lastUpdate == sunCalc.value.lastUpdate
        // one check result per rule, in rule order, which replaces azimuthPos
        && |p.pos| == |rules|
        && (forall i :: 0 <= i < |rules| ==> p.pos[i] == RuleCheck(rt, msg, p.azimuth, rules[i]))
        && azimuthPos == p.pos
        && !p.posChanged
        && |out.ports| == |rules| + 1
        && (forall i :: 0 <= i < |rules| ==> (out.ports[i + 1].Some? <==> p.pos[i]))
        && (forall i :: 0 <= i < |rules| && p.pos[i] ==>
              out.ports[i + 1] == Some(RulePort(true, Changed(old(azimuthPos), i, true), p.azimuth)))
        && (startType != "none" ==> start.Ok? && p.startTime == RecordedTime(startType, start.value))
        && (endType != "none" ==> end.Ok? && p.endTime == RecordedTime(endType, end.value))
        && (startType == "none" ==> p.startTime.None?)
        && (endType == "none" ==> p.endTime.None?)
        && p.sunInSky == SunInSky(p.startTime, p.endTime, now)
        && out.status == StatusOf(ErrorStatus(startType, Evaluated(start), endType, Evaluated(end)), p)
    {
      if !configured {
        return NotConfigured;
      }
      if sunCalc.Err? {
        return Failed(sunCalc.error);
      }
      var sun := sunCalc.value;
      if !NumTruthy(sun.azimuth) {
        return AzimuthMissing(sun);
      }
      var errorStatus := "";
      var startTime: Option<Num> := None;
      var endTime: Option<Num> := None;
      if startType != "none" {
        if start.Err? {
          return Failed(start.error);
        }
        if ErrorSet(start.value) {
          errorStatus := "could not evaluate start time";
        } else {
          startTime := Some(TimeValue(start.value.value));
        }
      }
      if endType != "none" {
        if end.Err? {
          return Failed(end.error);
        }
        if ErrorSet(end.value) {
          errorStatus := "could not evaluate end time";
        } else {
          endTime := Some(TimeValue(end.value.value));
        }
      }
      var sunInSky := SunInSky(startTime, endTime, now);
      var pos, posChanged, ports := RuleLoop(rt, msg, sun.azimuth, rules, azimuthPos);
      var payload := Payload(sun.azimuth, sun.altitude, sun.lastUpdate, pos, posChanged,
                             startTime, endTime, sunInSky);
      azimuthPos := pos;
      out := Sent(payload, ports, StatusOf(errorStatus, payload));
    }
  }
}
