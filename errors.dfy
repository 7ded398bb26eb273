/** The errors the configuration node throws. Their user-facing text comes
    from a translation table; the model keeps which error it is and the data
    the text is built from. */
module Errors {
  import opened Wrappers
  import opened Js

  /** Why a coordinate check failed, in the order the checks are made. */
  datatype CoordError = LongitudeMissing | LatitudeMissing | CoordinatesMissing

  /** A thrown `Error`. */
  datatype Failure =
    | Thrown(message: string)
      // an error thrown by a collaborator (property evaluation, date parsing)
    | InvalidCoordinates(reason: CoordError)
      // position-config.errors.longitude-missing / latitude-missing / coordinates-missing
    | NotEvaluableProperty(vType: Option<string>, value: JsValue)
      // errors.notEvaluableProperty
    | NotANumber(vType: Option<string>, value: JsValue)
      // 'the value of <type>.<value> is not a valid Number!'
    | NotEvaluablePropertyAdd(timeType: string, timeValue: JsValue, original: Failure)
      // errors.notEvaluablePropertyAdd, with `original` set to the caught error
    | TypeError(what: string)
      // a TypeError raised by the JavaScript engine
}
