/** The JavaScript values the configuration node reads and returns: numbers
    that may be NaN, Date objects that may be Invalid Dates, the small value
    domain of node properties, and the conversions `String(v)`, `Number(v)`
    and truthiness that the code relies on. */
module Js {
  import opened Wrappers

  /** A JavaScript number: a finite value or NaN. */
  datatype Num = NaN | Fin(v: real)

  /** A Date object: its UTC time value in milliseconds, or an Invalid Date. */
  datatype JsDate = Date(ms: int) | InvalidDate

  /** `date.getTime()`. */
  function TimeValue(d: JsDate): (r: Num)
    ensures r.NaN? <==> d.InvalidDate?
  {
    match d
    case Date(ms) => Fin(ms as real)
    case InvalidDate => NaN
  }

  /** `x === y` on two numbers: NaN is equal to nothing. */
  predicate NumEquals(x: Num, y: Num) {
    x.Fin? && y.Fin? && x.v == y.v
  }

  /** Truthiness of a number: neither 0 nor NaN. */
  predicate NumTruthy(x: Num) {
    x.Fin? && x.v != 0.0
  }

  /** A property value: the seven kinds of value a node property can hold. */
  datatype JsValue =
    | Undefined
    | Null
    | Bool(b: bool)
    | Number(n: Num)
    | Str(s: string)
    | Arr(elems: seq<JsValue>)
    | Obj(keys: seq<string>)

  /** The parts of an incoming message the node code reads directly. */
  datatype Msg = Msg(payload: JsValue, value: JsValue)

  /** The floating-point and parsing built-ins of the JavaScript engine. */
  datatype Engine = Engine(
    numberToString: real -> string,      // Number.prototype.toString of a finite number
    stringToNumber: string -> Num,       // Number(text)
    parseFloat: string -> Num,           // parseFloat(text)
    parseDate: string -> JsDate,         // new Date(text)
    radToDeg: Num -> Num,                // 180 / Math.PI * x
    degToRad: Num -> Num,                // x / (180 / Math.PI)
    sameObject: (JsValue, JsValue) -> bool  // reference identity of two objects
  )

  predicate IsNullish(v: JsValue) {
    v.Undefined? || v.Null?
  }

  /** JavaScript truthiness. */
  predicate Truthy(v: JsValue) {
    match v
    case Undefined => false
    case Null => false
    case Bool(b) => b
    case Number(n) => NumTruthy(n)
    case Str(s) => s != ""
    case Arr(_) => true
    case Obj(_) => true
  }

  /** `parts.join(sep)`. */
  function Join(parts: seq<string>, sep: string): (r: string)
    ensures |parts| > 0 ==> parts[0] <= r
  {
    if |parts| == 0 then ""
    else if |parts| == 1 then parts[0]
    else parts[0] + sep + Join(parts[1..], sep)
  }

  /** `String(v)`, which is also `v + ''`: arrays join their elements with
      commas, writing null and undefined elements as empty text. */
  function ToString(v: JsValue, e: Engine): string
    decreases v
  {
    match v
    case Undefined => "undefined"
    case Null => "null"
    case Bool(b) => if b then "true" else "false"
    case Number(n) => if n.NaN? then "NaN" else e.numberToString(n.v)
    case Str(s) => s
    case Arr(es) =>
      Join(seq(|es|, i requires 0 <= i < |es| =>
        if IsNullish(es[i]) then "" else ToString(es[i], e)), ",")
    case Obj(_) => "[object Object]"
  }

  /** `Number(v)`. */
  function ToNumber(v: JsValue, e: Engine): Num {
    match v
    case Undefined => NaN
    case Null => Fin(0.0)
    case Bool(b) => if b then Fin(1.0) else Fin(0.0)
    case Number(n) => n
    case Str(s) => e.stringToNumber(s)
    case Arr(_) => e.stringToNumber(ToString(v, e))
    case Obj(_) => NaN
  }

  /** `text.includes(part)`: `part` occurs in `text` at some position. */
  predicate Includes(text: string, part: string)
    decreases |text|
  {
    if |part| > |text| then false
    else if text[..|part|] == part then true
    else Includes(text[1..], part)
  }

  /** `part` occurs in `text` starting at index `i`. */
  predicate OccursAt(text: string, part: string, i: int) {
    0 <= i && i + |part| <= |text| && text[i..i + |part|] == part
  }

  /** Includes agrees with the definition "some window of `text` equals `part`". */
  lemma {:induction false} IncludesIffOccurs(text: string, part: string)
    ensures Includes(text, part) <==> exists i :: OccursAt(text, part, i)
    decreases |text|
  {
    if |part| > |text| {
    } else if text[..|part|] == part {
      assert OccursAt(text, part, 0);
    } else {
      IncludesIffOccurs(text[1..], part);
      if Includes(text, part) {
        var i :| OccursAt(text[1..], part, i);
        assert OccursAt(text, part, i + 1);
      }
      if exists i :: OccursAt(text, part, i) {
        var i :| OccursAt(text, part, i);
        assert i != 0;
        assert text[1..][i - 1..i - 1 + |part|] == text[i..i + |part|];
        assert OccursAt(text[1..], part, i - 1);
      }
    }
  }
}
