/** The loosely typed values that reach the engine from a parsed JSON request
    body, and the three JavaScript operations the engine applies to them:
    property reads, `??` and `Number(v)`. */
module JsValues {

  import opened Wrappers

  /** A JSON value as JavaScript sees it after parsing. Numbers are kept
      finite: an overflowing literal such as `1e400`, which parses to
      Infinity, is not modelled. `Undefined` is what reading an absent
      property yields. `Composite` stands for an array or an object and
      carries the text `String(v)` gives for it. */
  datatype JsValue =
    | Undefined
    | Null
    | Bool(b: bool)
    | Num(n: real)
    | Str(s: string)
    | Composite(text: string)

  /** A plain object of the request, such as `student_data`. */
  type RawObject = map<string, JsValue>

  /** JavaScript's text-to-number conversion, kept abstract. `None` stands
      for every non-finite outcome (NaN and the two infinities). */
  type NumberParser = string -> Option<real>

  /** `o[key]`: an absent property reads as `undefined`. */
  function Get(o: RawObject, key: string): JsValue {
    if key in o then o[key] else Undefined
  }

  predicate IsNullish(v: JsValue) {
    v.Undefined? || v.Null?
  }

  /** `a ?? b`. */
  function Coalesce(a: JsValue, b: JsValue): (r: JsValue)
    ensures !IsNullish(a) ==> r == a
    ensures IsNullish(a) ==> r == b
  {
    if IsNullish(a) then b else a
  }

  /** `Number(v)` when the result is finite, `None` otherwise. An array or
      object converts through its string form. */
  function ToNumber(v: JsValue, parse: NumberParser): (r: Option<real>)
    ensures v.Undefined? ==> r.None?
    ensures v.Null? ==> r == Some(0.0)
    ensures v.Bool? ==> r == Some(if v.b then 1.0 else 0.0)
    ensures v.Num? ==> r == Some(v.n)
    ensures v.Str? ==> r == parse(v.s)
    ensures v.Composite? ==> r == parse(v.text)
  {
    match v
    case Undefined => None
    case Null => Some(0.0)
    case Bool(b) => Some(if b then 1.0 else 0.0)
    case Num(n) => Some(n)
    case Str(s) => parse(s)
    case Composite(t) => parse(t)
  }
}
