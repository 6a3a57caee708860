/** The few JavaScript runtime notions the heatmap's CPU side depends on:
    numbers (a double seen as an exact real plus its non-finite values),
    dynamically typed arguments, truthiness, and the exceptions the setters
    and the render dispatch raise. */
module Js {

  datatype Option<T> = None | Some(value: T) {
    function GetOr(default: T): T {
      match this
      case Some(v) => v
      case None => default
    }
  }

  /** A JavaScript number. Finite doubles are modelled by exact reals
      (rounding is not modelled); the non-finite values are kept because the
      library relies on them (`max` defaults to Infinity, an unset uniform
      reads as NaN). */
  datatype Number = Finite(v: real) | PosInfinity | NegInfinity | NaN

  /** ToBoolean on a number: 0 and NaN are falsy, everything else truthy. */
  predicate Truthy(n: Number) {
    match n
    case Finite(v) => v != 0.0
    case NaN => false
    case _ => true
  }

  /** `x / d` for a finite numerator, with IEEE-754 division by zero and by
      an infinity (the sign of a zero result is not modelled). */
  function Div(x: real, d: Number): (q: Number)
    ensures d.Finite? && d.v != 0.0 ==> q == Finite(x / d.v)
    ensures d.PosInfinity? || d.NegInfinity? ==> q == Finite(0.0)
    ensures q.NaN? <==> d.NaN? || (d == Finite(0.0) && x == 0.0)
  {
    match d
    case Finite(v) =>
      if v != 0.0 then Finite(x / v)
      else if x > 0.0 then PosInfinity
      else if x < 0.0 then NegInfinity
      else NaN
    case PosInfinity => Finite(0.0)
    case NegInfinity => Finite(0.0)
    case NaN => NaN
  }

  /** `n * k` for a finite factor k, IEEE-754 style (Infinity * 0 is NaN). */
  function Scale(n: Number, k: real): (r: Number)
    ensures n.Finite? ==> r == Finite(n.v * k)
    ensures n.NaN? ==> r.NaN?
  {
    match n
    case Finite(_) => Finite(n.v * k)
    case PosInfinity => if k > 0.0 then PosInfinity else if k < 0.0 then NegInfinity else NaN
    case NegInfinity => if k > 0.0 then NegInfinity else if k < 0.0 then PosInfinity else NaN
    case NaN => NaN
  }

  /** An argument as a setter receives it: any JavaScript value. */
  datatype Value =
    | Undefined
    | Null
    | Boolean(b: bool)
    | Num(n: Number)
    | Str(s: string)
    | Array(items: seq<Value>)
    | Object

  /** The exceptions the chart raises. */
  datatype ErrorKind = ReferenceError | TypeError | SyntaxError

  /** Normal completion or a thrown exception. */
  datatype Outcome = Done | Threw(error: ErrorKind)

  /** checkNumberParameter: ReferenceError for undefined, TypeError for any
      other value whose typeof is not 'number' (NaN and the infinities pass). */
  function CheckNumberParameter(param: Value): (r: Outcome)
    ensures r == Done <==> param.Num?
    ensures r == Threw(ReferenceError) <==> param == Undefined
    ensures r == Threw(TypeError) <==> !param.Num? && param != Undefined
    ensures r != Threw(SyntaxError)
  {
    if param.Undefined? then Threw(ReferenceError)
    else if !param.Num? then Threw(TypeError)
    else Done
  }

  /** True when every element of an array is a number
      (`translate.every((value) => typeof value === 'number')`). */
  predicate AllNumbers(items: seq<Value>) {
    forall i :: 0 <= i < |items| ==> items[i].Num?
  }

  /** The guard of setTranslate: an array of exactly two numbers, returned as
      the pair it will store. */
  function TranslatePair(param: Value): (r: Option<(Number, Number)>)
    ensures r.Some? <==> param.Array? && |param.items| == 2 && param.items[0].Num? && param.items[1].Num?
    ensures r.Some? ==> r.value == (param.items[0].n, param.items[1].n)
  {
    if param.Array? && |param.items| == 2 && AllNumbers(param.items) then
      Some((param.items[0].n, param.items[1].n))
    else
      None
  }
}
