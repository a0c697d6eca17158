/**
  The dynamic Python values the overlay code type-checks with `isinstance`.
  There is no separate case for `bool`: in Python a `bool` is an `int` and
  passes the same check, so it is covered by `IntV`.
 */
module PyValue {

  datatype Value =
    | IntV(i: int)
    | RealV(r: real)          // a Python float, without rounding
    | StrV(s: string)
    | ListV(items: seq<Value>)
    | Other                   // None, tuples, dicts and every other object

  /** `isinstance(v, (int, float))`: strings, lists and every other object
      are rejected. */
  predicate IsNumber(v: Value)
    ensures IsNumber(v) <==> !(v.StrV? || v.ListV? || v.Other?)
  {
    v.IntV? || v.RealV?
  }

  /** The number a numeric value denotes. */
  function AsReal(v: Value): (r: real)
    requires IsNumber(v)
    ensures v.IntV? ==> r == v.i as real
    ensures v.RealV? ==> r == v.r
  {
    match v
    case IntV(i) => i as real
    case RealV(r) => r
  }
}
