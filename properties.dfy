/** The property dispatchers `getFloatProp` and `getPropValue` and the
    comparison engine `comparePropValue` of the configuration node.

    A property is given as a type tag and a value. The tag `None` stands for
    an undefined or null type. Messages written with `_srcNode.error` or
    `_srcNode.debug` are returned as a log. */
module Properties {
  import opened Wrappers
  import opened Js
  import opened Errors
  import opened Collaborators

  /** What the dispatchers write to the node's log. */
  datatype LogEntry =
    | NotEvaluableLog(vType: string, value: JsValue)   // error: errors.notEvaluableProperty
    | DebugLog(message: string)                         // debug: an error caught during evaluation
    | UnknownOperatorLog(operator: string)              // error: errors.unknownCompareOperator

  /** A tag that is undefined, null or the empty text. */
  predicate IsBlankType(vType: Option<string>) {
    vType.None? || vType.value == ""
  }

  /** A tag that selects no value at all: blank or "none". */
  predicate IsNoneType(vType: Option<string>) {
    IsBlankType(vType) || vType.value == "none"
  }

  // ---------------------------------------------------------------------
  // getFloatProp

  /** `def || NaN`: a default of 0 or NaN gives NaN. */
  function DefaultOrNaN(def: Num): (r: Num)
    ensures r.NaN? <==> !NumTruthy(def)
    ensures r.Fin? ==> r == def
  {
    if NumTruthy(def) then def else NaN
  }

  /** What `getFloatProp` makes of the data it read: null or undefined
      throws "not evaluable", text that `parseFloat` cannot read throws "not
      a valid Number", anything else is the parsed number. */
  predicate ParsedFrom(r: Result<Num, Failure>, e: Engine, vType: Option<string>, value: JsValue, data: JsValue) {
    if IsNullish(data) then r == Err(NotEvaluableProperty(vType, value))
    else if e.parseFloat(ToString(data, e)).NaN? then r == Err(NotANumber(vType, value))
    else r == Ok(e.parseFloat(ToString(data, e)))
  }

  /** The number a float property holds, or the error it throws. `def` is
      NaN when the caller passes no default. */
  function GetFloatProp(rt: Runtime, msg: Msg, vType: Option<string>, value: JsValue, def: Num)
    : (r: Result<Num, Failure>)
    // "none", or an untyped value that is not a number, yields the default
    ensures vType == Some("none") ==> r == Ok(DefaultOrNaN(def))
    ensures IsBlankType(vType) && ToNumber(value, rt.engine).NaN? ==> r == Ok(DefaultOrNaN(def))
    // a number is never NaN unless it is the default
    ensures r.Ok? && r.value.NaN? ==> IsNoneType(vType) && !NumTruthy(def)
    // an untyped numeric value, or a "num" value, is parsed
    ensures (vType == Some("num") || (IsBlankType(vType) && ToNumber(value, rt.engine).Fin?)) ==>
      ParsedFrom(r, rt.engine, vType, value, value)
    // the message fields are read directly
    ensures vType == Some("msgPayload") && IsNullish(msg.payload) ==>
      r == Err(NotEvaluableProperty(vType, value))
    ensures vType == Some("msgPayload") ==> ParsedFrom(r, rt.engine, vType, value, msg.payload)
    ensures vType == Some("msgValue") ==> ParsedFrom(r, rt.engine, vType, value, msg.value)
    // any other type is evaluated by Node-RED, whose exception propagates
    ensures !IsNoneType(vType) && vType.value !in {"num", "msgPayload", "msgValue"} ==>
      match rt.evaluateNodeProperty(value, vType.value, msg)
      case Ok(v) => ParsedFrom(r, rt.engine, vType, value, v)
      case Err(m) => r == Err(Thrown(m))
  {
    if vType == Some("none") || (IsBlankType(vType) && ToNumber(value, rt.engine).NaN?) then
      Ok(DefaultOrNaN(def))
    else
      var data :-
        if vType == Some("num") || IsBlankType(vType) then Ok(value)
        else if vType == Some("msgPayload") then Ok(msg.payload)
        else if vType == Some("msgValue") then Ok(msg.value)
        else match rt.evaluateNodeProperty(value, vType.value, msg)
          case Ok(v) => Ok(v)
          case Err(m) => Err(Thrown(m));
      if IsNullish(data) then Err(NotEvaluableProperty(vType, value))
      else
        var n := rt.engine.parseFloat(ToString(data, rt.engine));
        if n.NaN? then Err(NotANumber(vType, value)) else Ok(n)
  }

  /** An evaluated property yields the number a "num" property holding the
      evaluated value would: both succeed together, with the same number. */
  lemma GetFloatPropEvaluatedAsNum(rt: Runtime, msg: Msg, t: string, value: JsValue, def: Num)
    requires !IsNoneType(Some(t)) && t != "num" && t != "msgPayload" && t != "msgValue"
    requires rt.evaluateNodeProperty(value, t, msg).Ok?
    ensures var v := rt.evaluateNodeProperty(value, t, msg).value;
      var r := GetFloatProp(rt, msg, Some(t), value, def);
      var n := GetFloatProp(rt, msg, Some("num"), v, def);
      (r.Ok? <==> n.Ok?) && (r.Ok? ==> r.value == n.value)
  {
  }

  // ---------------------------------------------------------------------
  // getPropValue

  /** The value of a property before the callback sees it, with what was
      logged while evaluating it. */
  datatype PropValue = PropValue(value: JsValue, log: seq<LogEntry>)

  /** The optional result callback: (type, value, result, addID) to the final value. */
  type PropCallback = (string, JsValue, JsValue, int) -> JsValue

  /** The if-chain of `getPropValue` for a type that is not blank or "none". */
  function RawPropValue(rt: Runtime, msg: Msg, clock: int, vType: string, value: JsValue): (r: PropValue)
    ensures vType == "num" ==> r == PropValue(Number(ToNumber(value, rt.engine)), [])
    ensures vType == "DayOfMonth" ==> r.value.Bool? && r.log == []
    ensures vType == "DayOfMonth" && rt.getSpecialDayOfMonth(clock, value).None? ==> r.value == Bool(false)
    // otherwise true exactly when the special day falls on today's day of the month
    ensures vType == "DayOfMonth" && rt.getSpecialDayOfMonth(clock, value).Some? ==>
      var nd := rt.getSpecialDayOfMonth(clock, value).value;
      (r.value == Bool(true) <==> NumEquals(rt.localDayOfMonth(nd), rt.localDayOfMonth(Date(clock))))
    // the message fields are read directly
    ensures vType == "msgPayload" ==> r == PropValue(msg.payload, [])
    ensures vType == "msgValue" ==> r == PropValue(msg.value, [])
    // any other type is evaluated by Node-RED; its result is taken as it is
    ensures vType !in {"num", "msgPayload", "msgValue", "DayOfMonth"} ==>
      match rt.evaluateNodeProperty(value, vType, msg)
      case Ok(v) => r == PropValue(v, [])
      case Err(m) => r == PropValue(Null, [DebugLog(m)])
    // an evaluation error is caught and logged: the value stays null
    ensures vType !in {"num", "msgPayload", "msgValue", "DayOfMonth"} ==>
      (rt.evaluateNodeProperty(value, vType, msg).Err? <==> r.log != [])
    ensures r.log != [] ==> r.value == Null
  {
    if vType == "num" then PropValue(Number(ToNumber(value, rt.engine)), [])
    else if vType == "msgPayload" then PropValue(msg.payload, [])
    else if vType == "msgValue" then PropValue(msg.value, [])
    else if vType == "DayOfMonth" then
      match rt.getSpecialDayOfMonth(clock, value)
      case None => PropValue(Bool(false), [])
      case Some(nd) =>
        PropValue(Bool(NumEquals(rt.localDayOfMonth(nd), rt.localDayOfMonth(Date(clock)))), [])
    else
      match rt.evaluateNodeProperty(value, vType, msg)
      case Ok(v) => PropValue(v, [])
      case Err(m) => PropValue(Null, [DebugLog(m)])
  }

  /** `getPropValue`: null for a blank or "none" type; otherwise the raw
      value, handed to the callback when there is one, or logged as not
      evaluable when it is null or undefined. */
  function GetPropValue(rt: Runtime, msg: Msg, clock: int, vType: Option<string>, value: JsValue,
                        callback: Option<PropCallback>, addId: int): (r: PropValue)
    // nothing is evaluated and the callback is not called
    ensures IsNoneType(vType) ==> r == PropValue(Null, [])
    ensures !IsNoneType(vType) && callback.Some? ==>
      r.value == callback.value(vType.value, value, RawPropValue(rt, msg, clock, vType.value, value).value, addId)
    // without a callback, a value that is not null or undefined is returned as is
    ensures !IsNoneType(vType) && callback.None? ==>
      var raw := RawPropValue(rt, msg, clock, vType.value, value);
      if IsNullish(raw.value) then r == PropValue(Null, raw.log + [NotEvaluableLog(vType.value, value)])
      else r == raw
  {
    if IsNoneType(vType) then PropValue(Null, [])
    else
      var raw := RawPropValue(rt, msg, clock, vType.value, value);
      match callback
      case Some(f) => PropValue(f(vType.value, value, raw.value, addId), raw.log)
      case None =>
        if IsNullish(raw.value) then PropValue(Null, raw.log + [NotEvaluableLog(vType.value, value)])
        else raw
  }

  /** Without a callback, `getPropValue` never returns undefined, and it
      returns null exactly when the type selects nothing or the value could
      not be evaluated, which it logs. */
  lemma GetPropValueNullIffNotEvaluable(rt: Runtime, msg: Msg, clock: int, vType: Option<string>,
                                        value: JsValue, addId: int)
    ensures var r := GetPropValue(rt, msg, clock, vType, value, None, addId);
      && !r.value.Undefined?
      && (r.value.Null? <==> IsNoneType(vType) || NotEvaluableLog(vType.value, value) in r.log)
  {
    var r := GetPropValue(rt, msg, clock, vType, value, None, addId);
    if !IsNoneType(vType) {
      var raw := RawPropValue(rt, msg, clock, vType.value, value);
      if !IsNullish(raw.value) {
        assert forall e :: e in raw.log ==> e.DebugLog?;
      }
    }
  }

  // ---------------------------------------------------------------------
  // JavaScript comparison of two property values

  /** `ToPrimitive(v)`: arrays and plain objects become their text. */
  function ToPrimitive(v: JsValue, e: Engine): (r: JsValue)
    ensures !r.Arr? && !r.Obj?
    ensures (v.Arr? || v.Obj?) ==> r == Str(ToString(v, e))
  {
    if v.Arr? || v.Obj? then Str(ToString(v, e)) else v
  }

  predicate IsObject(v: JsValue) {
    v.Arr? || v.Obj?
  }

  /** `x == y` between two primitives that are not null, undefined or boolean. */
  predicate LooseEqualsPrimitive(x: JsValue, y: JsValue, e: Engine)
    requires (x.Number? || x.Str?) && (y.Number? || y.Str?)
  {
    if x.Str? && y.Str? then x.s == y.s
    else NumEquals(ToNumber(x, e), ToNumber(y, e))
  }

  /** `x == y`, JavaScript's loose equality, on property values. */
  predicate LooseEquals(x: JsValue, y: JsValue, e: Engine) {
    if IsNullish(x) || IsNullish(y) then IsNullish(x) && IsNullish(y)
    else if IsObject(x) && IsObject(y) then e.sameObject(x, y)
    else if x.Bool? && y.Bool? then x.b == y.b
    else
      // booleans become numbers, objects become primitives
      var px := if x.Bool? then Number(ToNumber(x, e)) else ToPrimitive(x, e);
      var py := if y.Bool? then Number(ToNumber(y, e)) else ToPrimitive(y, e);
      LooseEqualsPrimitive(px, py, e)
  }

  /** Loose equality is symmetric whenever object identity is. */
  lemma LooseEqualsSymmetric(x: JsValue, y: JsValue, e: Engine)
    requires e.sameObject(x, y) == e.sameObject(y, x)
    ensures LooseEquals(x, y, e) == LooseEquals(y, x, e)
  {
  }

  /** The loose equalities the comparison operators rely on. */
  lemma LooseEqualsExamples(e: Engine)
    requires e.stringToNumber("1") == Fin(1.0) && e.stringToNumber("") == Fin(0.0)
    ensures LooseEquals(Null, Undefined, e) && !LooseEquals(Null, Number(Fin(0.0)), e)
    ensures LooseEquals(Str("1"), Number(Fin(1.0)), e)
    ensures LooseEquals(Bool(true), Str("1"), e)
    ensures LooseEquals(Str(""), Bool(false), e)
    ensures !LooseEquals(Number(NaN), Number(NaN), e)
  {
  }

  /** Code-unit order on texts: `s < t` when both are strings. */
  predicate TextLess(s: string, t: string) {
    if |t| == 0 then false
    else if |s| == 0 then true
    else if s[0] != t[0] then s[0] < t[0]
    else TextLess(s[1..], t[1..])
  }

  /** String `<` is a strict total order: of two different texts exactly
      one is below the other, and no text is below itself. */
  lemma {:induction false} TextLessTrichotomy(s: string, t: string)
    ensures !(TextLess(s, t) && TextLess(t, s))
    ensures s != t ==> TextLess(s, t) || TextLess(t, s)
    ensures !TextLess(s, s)
  {
    if |s| > 0 && |t| > 0 && s[0] == t[0] {
      TextLessTrichotomy(s[1..], t[1..]);
      if s != t {
        assert s == [s[0]] + s[1..] && t == [t[0]] + t[1..];
      }
    }
    if |s| > 0 {
      TextLessTrichotomy(s[1..], s[1..]);
    }
  }

  /** The abstract relational comparison `x < y`: None stands for undefined,
      the outcome when either side converts to NaN. */
  function LessThan(x: JsValue, y: JsValue, e: Engine): (r: Option<bool>)
    ensures ToPrimitive(x, e).Str? && ToPrimitive(y, e).Str? ==> r.Some?
    ensures r.None? ==> ToNumber(ToPrimitive(x, e), e).NaN? || ToNumber(ToPrimitive(y, e), e).NaN?
    // two texts compare by code units, two numbers by value
    ensures x.Str? && y.Str? ==> r == Some(TextLess(x.s, y.s))
    ensures x.Number? && y.Number? && x.n.Fin? && y.n.Fin? ==> r == Some(x.n.v < y.n.v)
    ensures x == Number(NaN) || y == Number(NaN) ==> r.None?
  {
    var px, py := ToPrimitive(x, e), ToPrimitive(y, e);
    if px.Str? && py.Str? then Some(TextLess(px.s, py.s))
    else
      var nx, ny := ToNumber(px, e), ToNumber(py, e);
      if nx.NaN? || ny.NaN? then None else Some(nx.v < ny.v)
  }

  // ---------------------------------------------------------------------
  // Splitting on the literal separator of containSome / containEvery

  /** The separator: the regular expression `/,;\|/` matches only this text. */
  const ListSeparator: string := ",;|"

  /** `s.split(sep)` for a non-empty separator. */
  function Split(s: string, sep: string): (r: seq<string>)
    requires |sep| > 0
    ensures |r| >= 1
    decreases |s|
  {
    if |s| < |sep| then [s]
    else if s[..|sep|] == sep then [""] + Split(s[|sep|..], sep)
    else
      var rest := Split(s[1..], sep);
      [[s[0]] + rest[0]] + rest[1..]
  }

  /** Joining the pieces with the separator gives back the text. */
  lemma {:induction false} SplitJoin(s: string, sep: string)
    requires |sep| > 0
    ensures Join(Split(s, sep), sep) == s
    decreases |s|
  {
    if |s| < |sep| {
    } else if s[..|sep|] == sep {
      SplitJoin(s[|sep|..], sep);
      var rest := Split(s[|sep|..], sep);
      assert Split(s, sep) == [""] + rest;
      assert ([""] + rest)[1..] == rest;
      assert s == "" + sep + s[|sep|..];
    } else {
      SplitJoin(s[1..], sep);
      var rest := Split(s[1..], sep);
      var r := [[s[0]] + rest[0]] + rest[1..];
      assert r[1..] == rest[1..];
      if |rest| == 1 {
        assert s == [s[0]] + s[1..];
      } else {
        assert Join(rest, sep) == rest[0] + sep + Join(rest[1..], sep);
        assert s == [s[0]] + s[1..];
      }
    }
  }

  /** The first piece is the text before the first separator: a prefix of `s`. */
  lemma FirstPieceIsPrefix(s: string, sep: string)
    requires |sep| > 0
    ensures var r := Split(s, sep); |r[0]| <= |s| && s[..|r[0]|] == r[0]
  {
    var r := Split(s, sep);
    SplitJoin(s, sep);
    assert r[0] <= Join(r, sep);
  }

  /** No piece contains the separator. */
  lemma {:induction false} SplitPiecesFree(s: string, sep: string)
    requires |sep| > 0
    ensures forall p, i :: p in Split(s, sep) ==> !OccursAt(p, sep, i)
    decreases |s|
  {
    if |s| < |sep| {
    } else if s[..|sep|] == sep {
      SplitPiecesFree(s[|sep|..], sep);
    } else {
      SplitPiecesFree(s[1..], sep);
      var rest := Split(s[1..], sep);
      var first := [s[0]] + rest[0];
      forall i
        ensures !OccursAt(first, sep, i)
      {
        if 0 <= i && i + |sep| <= |first| {
          if i == 0 {
            FirstPieceIsPrefix(s[1..], sep);
            assert first == s[..|first|];
            assert first[..|sep|] == s[..|sep|];
          } else {
            assert first[i..i + |sep|] == rest[0][i - 1..i - 1 + |sep|];
            assert !OccursAt(rest[0], sep, i - 1);
          }
        }
      }
      assert forall p :: p in Split(s, sep) ==> p == first || p in rest[1..];
    }
  }

  /** A text without the separator is a single piece. */
  lemma {:induction false} SplitWithoutSeparator(s: string, sep: string)
    requires |sep| > 0
    requires forall i :: !OccursAt(s, sep, i)
    ensures Split(s, sep) == [s]
    decreases |s|
  {
    if |s| >= |sep| {
      assert !OccursAt(s, sep, 0);
      forall i ensures !OccursAt(s[1..], sep, i) {
        if OccursAt(s[1..], sep, i) {
          assert s[1..][i..i + |sep|] == s[i + 1..i + 1 + |sep|];
          assert OccursAt(s, sep, i + 1);
        }
      }
      SplitWithoutSeparator(s[1..], sep);
      assert [s[0]] + s[1..] == s;
    }
  }

  // ---------------------------------------------------------------------
  // comparePropValue

  /** The result of a comparison and what was logged on the way. */
  datatype Verdict = Verdict(value: bool, log: seq<LogEntry>)

  const UnaryOperators: set<string> := {
    "true", "false", "null", "nnull", "empty", "nempty",
    "true_expr", "false_expr", "ntrue_expr", "nfalse_expr"}

  const BinaryOperators: set<string> := {
    "equal", "nequal", "lt", "lte", "gt", "gte", "contain", "containSome", "containEvery"}

  /** No operator is both unary and binary; a helper that spares
      `ComparePropValue` from deciding this string by string. */
  lemma OperatorsDisjoint(compare: string)
    ensures compare in BinaryOperators ==> compare !in UnaryOperators
  {
  }

  /** `empty`: a text, array or object without elements or keys; any other
      value is neither empty nor non-empty. */
  function Emptiness(a: JsValue): (r: Option<bool>)
    ensures r.None? <==> !(a.Str? || a.Arr? || a.Obj?)
    // empty means no characters, no elements or no keys
    ensures a.Str? ==> r == Some(|a.s| == 0)
    ensures a.Arr? ==> r == Some(|a.elems| == 0)
    ensures a.Obj? ==> r == Some(|a.keys| == 0)
    ensures r == Some(true) <==> a == Str("") || a == Arr([]) || a == Obj([])
  {
    match a
    case Str(s) => Some(|s| == 0)
    case Arr(es) => Some(|es| == 0)
    case Obj(ks) => Some(|ks| == 0)
    case _ => None
  }

  /** The unary operators, on the value of operand A. */
  function CompareUnary(rt: Runtime, compare: string, a: JsValue): bool
    requires compare in UnaryOperators
  {
    match compare
    case "true" => a == Bool(true)
    case "false" => a == Bool(false)
    case "null" => IsNullish(a)
    case "nnull" => !IsNullish(a)
    case "empty" => Emptiness(a) == Some(true)
    case "nempty" => Emptiness(a) == Some(false)
    case "true_expr" => rt.isTrue(a)
    case "false_expr" => rt.isFalse(a)
    case "ntrue_expr" => !rt.isTrue(a)
    case _ => !rt.isFalse(a)
  }

  /** `txt.includes(v)` for some / every piece of `list` split on `,;|`. */
  predicate ContainsSome(txt: string, list: string) {
    exists v :: v in Split(list, ListSeparator) && Includes(txt, v)
  }

  predicate ContainsEvery(txt: string, list: string) {
    forall v :: v in Split(list, ListSeparator) ==> Includes(txt, v)
  }

  /** The binary operators, on the values of both operands. `containSome`
      and `containEvery` call `split` on B, which throws a TypeError unless B
      is a text. */
  function CompareBinary(e: Engine, compare: string, a: JsValue, b: JsValue): (r: Result<bool, Failure>)
    requires compare in BinaryOperators
    ensures r.Err? <==> compare in {"containSome", "containEvery"} && !b.Str?
    // two finite numbers compare by value
    ensures a.Number? && b.Number? && a.n.Fin? && b.n.Fin? ==>
      var x, y := a.n.v, b.n.v;
      && (compare == "equal" ==> r == Ok(x == y))
      && (compare == "nequal" ==> r == Ok(x != y))
      && (compare == "lt" ==> r == Ok(x < y))
      && (compare == "lte" ==> r == Ok(x <= y))
      && (compare == "gt" ==> r == Ok(x > y))
      && (compare == "gte" ==> r == Ok(x >= y))
    // a NaN operand fails every ordering
    ensures (a == Number(NaN) || b == Number(NaN)) && compare in {"lt", "lte", "gt", "gte"} ==> r == Ok(false)
    // A is searched for B, not the other way round
    ensures a.Str? && b.Str? ==>
      && (compare == "contain" ==> r == Ok(Includes(a.s, b.s)))
      && (compare == "containSome" ==> r == Ok(ContainsSome(a.s, b.s)))
      && (compare == "containEvery" ==> r == Ok(ContainsEvery(a.s, b.s)))
  {
    match compare
    case "equal" => Ok(LooseEquals(a, b, e))
    case "nequal" => Ok(!LooseEquals(a, b, e))
    case "lt" => Ok(LessThan(a, b, e) == Some(true))
    case "lte" => Ok(LessThan(b, a, e) == Some(false))
    case "gt" => Ok(LessThan(b, a, e) == Some(true))
    case "gte" => Ok(LessThan(a, b, e) == Some(false))
    case "contain" => Ok(Includes(ToString(a, e), ToString(b, e)))
    case "containSome" =>
      if b.Str? then Ok(ContainsSome(ToString(a, e), b.s)) else Err(TypeError("split is not a function"))
    case _ =>
      if b.Str? then Ok(ContainsEvery(ToString(a, e), b.s)) else Err(TypeError("split is not a function"))
  }

  /** Two texts compare by code units; "lte" and "gte" include equality. */
  lemma CompareBinaryTexts(e: Engine, compare: string, s: string, t: string)
    requires compare in {"equal", "nequal", "lt", "lte", "gt", "gte"}
    ensures var r := CompareBinary(e, compare, Str(s), Str(t));
      && (compare == "equal" ==> r == Ok(s == t))
      && (compare == "nequal" ==> r == Ok(s != t))
      && (compare == "lt" ==> r == Ok(TextLess(s, t)))
      && (compare == "lte" ==> r == Ok(TextLess(s, t) || s == t))
      && (compare == "gt" ==> r == Ok(TextLess(t, s)))
      && (compare == "gte" ==> r == Ok(TextLess(t, s) || s == t))
  {
    TextLessTrichotomy(s, t);
  }

  /** `comparePropValue`: evaluates operand A (with addID 1), and operand B
      (with addID 2) only for a binary operator. */
  function ComparePropValue(rt: Runtime, msg: Msg, clock: int,
                            opTypeA: Option<string>, opValueA: JsValue, compare: string,
                            opTypeB: Option<string>, opValueB: JsValue,
                            callback: Option<PropCallback>): (r: Result<Verdict, Failure>)
    // no operand A: false, and nothing is evaluated or logged
    ensures IsNoneType(opTypeA) ==> r == Ok(Verdict(false, []))
    // a unary operator never evaluates operand B
    ensures !IsNoneType(opTypeA) && compare in UnaryOperators ==>
      var a := GetPropValue(rt, msg, clock, opTypeA, opValueA, callback, 1);
      r == Ok(Verdict(CompareUnary(rt, compare, a.value), a.log))
    // an unknown operator logs an error and falls back to isTrue(a)
    ensures !IsNoneType(opTypeA) && compare !in UnaryOperators && compare !in BinaryOperators ==>
      var a := GetPropValue(rt, msg, clock, opTypeA, opValueA, callback, 1);
      r == Ok(Verdict(rt.isTrue(a.value), a.log + [UnknownOperatorLog(compare)]))
    // a binary operator compares the values of both operands, logging what both logged
    ensures !IsNoneType(opTypeA) && compare in BinaryOperators ==>
      var a := GetPropValue(rt, msg, clock, opTypeA, opValueA, callback, 1);
      var b := GetPropValue(rt, msg, clock, opTypeB, opValueB, callback, 2);
      var c := CompareBinary(rt.engine, compare, a.value, b.value);
      && (c.Ok? ==> r == Ok(Verdict(c.value, a.log + b.log)))
      && (c.Err? ==> r == Err(c.error))
    // only containSome and containEvery can throw
    ensures r.Err? ==> compare in {"containSome", "containEvery"}
  {
    if IsNoneType(opTypeA) then Ok(Verdict(false, []))
    else
      OperatorsDisjoint(compare);
      var a := GetPropValue(rt, msg, clock, opTypeA, opValueA, callback, 1);
      if compare in UnaryOperators then Ok(Verdict(CompareUnary(rt, compare, a.value), a.log))
      else if compare in BinaryOperators then
        var b := GetPropValue(rt, msg, clock, opTypeB, opValueB, callback, 2);
        var v :- CompareBinary(rt.engine, compare, a.value, b.value);
        Ok(Verdict(v, a.log + b.log))
      else Ok(Verdict(rt.isTrue(a.value), a.log + [UnknownOperatorLog(compare)]))
  }

  /** A unary comparison does not depend on operand B. */
  lemma UnaryIgnoresOperandB(rt: Runtime, msg: Msg, clock: int, opTypeA: Option<string>, opValueA: JsValue,
                             compare: string, typeB1: Option<string>, valueB1: JsValue,
                             typeB2: Option<string>, valueB2: JsValue, callback: Option<PropCallback>)
    requires compare in UnaryOperators
    ensures ComparePropValue(rt, msg, clock, opTypeA, opValueA, compare, typeB1, valueB1, callback)
         == ComparePropValue(rt, msg, clock, opTypeA, opValueA, compare, typeB2, valueB2, callback)
  {
  }

  /** `empty` and `nempty` are both false for a value that is not a text,
      array or object, and exact opposites otherwise. */
  lemma EmptyAndNonEmpty(rt: Runtime, a: JsValue)
    ensures !(a.Str? || a.Arr? || a.Obj?) ==>
      !CompareUnary(rt, "empty", a) && !CompareUnary(rt, "nempty", a)
    ensures (a.Str? || a.Arr? || a.Obj?) ==>
      CompareUnary(rt, "empty", a) != CompareUnary(rt, "nempty", a)
  {
  }

  /** When the list has no `,;|` sequence it is a single piece: containSome
      and containEvery both reduce to `contain`. So "x|b|z" is looked up as
      one text, and "abc" does not contain it. */
  lemma ContainWithoutSeparator(txt: string, list: string)
    requires forall i :: !OccursAt(list, ListSeparator, i)
    ensures ContainsSome(txt, list) <==> Includes(txt, list)
    ensures ContainsEvery(txt, list) <==> Includes(txt, list)
  {
    SplitWithoutSeparator(list, ListSeparator);
    assert list in Split(list, ListSeparator);
  }

  lemma ContainSomeExample(e: Engine)
    ensures CompareBinary(e, "containSome", Str("abc"), Str("x|b|z")) == Ok(false)
    ensures CompareBinary(e, "containSome", Str("abc"), Str("x,;|b")) == Ok(true)
  {
    forall i ensures !OccursAt("x|b|z", ListSeparator, i) {
      if 0 <= i <= 2 {
        assert "x|b|z"[i..i + 3][1] != ListSeparator[1];
      }
    }
    SplitWithoutSeparator("x|b|z", ListSeparator);
    assert !Includes("abc", "x|b|z");
    assert "x,;|b"[..3] != ListSeparator;
    assert "x,;|b"[1..] == ",;|b";
    assert ",;|b"[..3] == ListSeparator;
    assert ",;|b"[3..] == "b";
    assert Split("b", ListSeparator) == ["b"];
    assert Split(",;|b", ListSeparator) == ["", "b"];
    var rest := Split("x,;|b"[1..], ListSeparator);
    assert rest == ["", "b"];
    assert Split("x,;|b", ListSeparator) == [["x,;|b"[0]] + rest[0]] + rest[1..];
    assert ["x,;|b"[0]] + rest[0] == "x";
    assert Includes("abc", "b") by {
      assert "abc"[1..] == "bc";
      assert "bc"[..1] == "b";
    }
  }
}
