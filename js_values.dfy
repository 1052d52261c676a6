/** JavaScript value semantics that the rate calculator relies on: a number
    that may be NaN, the falsy-default rule of `x || d`, strict equality on
    numbers and `Math.round`. Numbers that feed string formatting are
    integer-valued here; the impact arithmetic works on `real`. */
module JsValues {

  datatype Option<T> = None | Some(value: T)

  /** A JavaScript number that is either NaN or an integer. */
  datatype JsNum = NaN | Num(n: int)

  /** `a === b` on numbers: NaN equals nothing, not even itself. */
  predicate StrictEquals(a: JsNum, b: JsNum)
  {
    a.Num? && b.Num? && a.n == b.n
  }

  /** `a + b` for a number `a` already known not to be NaN. */
  function Plus(a: int, b: JsNum): JsNum
  {
    if b.NaN? then NaN else Num(a + b.n)
  }

  /** A numeric field is truthy unless it is missing, NaN or zero. */
  predicate IsTruthyNum(v: Option<JsNum>)
  {
    v.Some? && v.value.Num? && v.value.n != 0
  }

  /** `v || default` for a numeric field. */
  function NumOr(v: Option<JsNum>, default: int): int
  {
    if IsTruthyNum(v) then v.value.n else default
  }

  /** A text field is truthy unless it is missing or empty. */
  predicate IsTruthyText(v: Option<string>)
  {
    v.Some? && v.value != ""
  }

  /** `v || default` for a text field. */
  function TextOr(v: Option<string>, default: string): string
  {
    if IsTruthyText(v) then v.value else default
  }

  /** `Math.round`: the nearest integer, a half rounded towards +infinity. */
  function Round(x: real): (r: int)
    ensures r as real - 0.5 <= x < r as real + 0.5
  {
    (x + 0.5).Floor
  }

  /** The characterisation of Round is exact: the integer it gives is the only
      one within half a unit below-inclusive, above-exclusive. */
  lemma RoundUnique(x: real, k: int)
    ensures Round(x) == k <==> k as real - 0.5 <= x < k as real + 0.5
  {
  }
}
