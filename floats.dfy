/**
 * Java `float` values, as far as the ink appearance needs them. Coordinates,
 * widths, opacities and colour components are only copied into operators,
 * never computed on, so a finite value is kept as a `real` and is not
 * rounded. The special values are kept because the border-width test uses
 * `Float.compare`, which tells +0.0 from -0.0 and orders NaN above
 * everything.
 */
module Floats {

  datatype Float =
    | Finite(value: real)   // Finite(0.0) is +0.0
    | NegativeZero
    | PositiveInfinity
    | NegativeInfinity
    | NaN

  const PositiveZero: Float := Finite(0.0)

  /** Position of a value's class in the total order of `Float.compare`. */
  function Rank(f: Float): nat
  {
    match f
    case NegativeInfinity => 0
    case Finite(v) => if v < 0.0 then 1 else if v == 0.0 then 3 else 4
    case NegativeZero => 2
    case PositiveInfinity => 5
    case NaN => 6
  }

  /**
   * `Float.compare(a, b)`, reduced to its sign: -0.0 sorts below +0.0 and
   * NaN is equal to itself and above every other value.
   */
  function Compare(a: Float, b: Float): (r: int)
    ensures -1 <= r <= 1
    ensures r == 0 <==> a == b
  {
    if Rank(a) < Rank(b) then -1
    else if Rank(a) > Rank(b) then 1
    else if a.Finite? && b.Finite? then
      (if a.value < b.value then -1 else if a.value > b.value then 1 else 0)
    else 0
  }

  /** Only +0.0 compares equal to the literal 0; -0.0 and NaN do not. */
  lemma CompareWithZero(w: Float)
    ensures Compare(w, PositiveZero) == 0 <==> w == PositiveZero
    ensures Compare(NegativeZero, PositiveZero) == -1
    ensures Compare(NaN, PositiveZero) == 1
  {
  }
}
