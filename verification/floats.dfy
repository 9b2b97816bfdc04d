/**
 * IEEE single/double values as the drivers use them: copied around and
 * compared against constants, never computed with. A finite value is an
 * exact real; the two infinities and NaN are kept because C's ordered
 * comparisons treat them specially (every comparison with NaN is false).
 */
module Floats {

  datatype Flt = Finite(value: real) | Infinity(negative: bool) | NaN

  const Zero: Flt := Finite(0.0)
  const One: Flt := Finite(1.0)

  /** C's `a < c` for a float `a` and a finite constant `c`. */
  predicate Less(a: Flt, c: real)
  {
    match a
    case Finite(v) => v < c
    case Infinity(negative) => negative
    case NaN => false
  }

  /** C's `a > c` for a float `a` and a finite constant `c`. */
  predicate Greater(a: Flt, c: real)
  {
    match a
    case Finite(v) => v > c
    case Infinity(negative) => !negative
    case NaN => false
  }

  /** A quaternion with named components, as `quatf`/`OSVR_Quaternion`/`HmdQuaternion_t` store them. */
  datatype Quat = Quat(w: Flt, x: Flt, y: Flt, z: Flt)

  /** A three-component vector, as `vec3f`/`OSVR_Vec3` store it. */
  datatype Vec3 = Vec3(x: Flt, y: Flt, z: Flt)

  /**
   * `memset(out, 0, n * sizeof(float))`: the all-zero bit pattern is +0.0.
   */
  function Zeros(n: nat): (r: seq<Flt>)
    ensures |r| == n && forall i :: 0 <= i < n ==> r[i] == Zero
  {
    seq(n, _ => Zero)
  }
}
