/** Arithmetic the analyser borrows from Python and numpy, stated over `real`:
    optional values, sums and means of sequences, float64 division with its
    infinities and NaN, and Python's truncating `int(x)`. */
module Numerics {

  datatype Option<T> = None | Some(value: T)

  /** The value of a numpy float64 division. Dividing by zero does not raise
      in numpy: it yields +inf, -inf or NaN according to the sign of the
      dividend. */
  datatype Ext = Finite(v: real) | PosInf | NegInf | NaN

  function Divide(x: real, y: real): (r: Ext)
    ensures r.Finite? <==> y != 0.0
    ensures r.Finite? ==> r.v * y == x
    ensures r == PosInf <==> y == 0.0 && x > 0.0
    ensures r == NegInf <==> y == 0.0 && x < 0.0
  {
    if y != 0.0 then Finite(x / y)
    else if x > 0.0 then PosInf
    else if x < 0.0 then NegInf
    else NaN
  }

  /** `e > c` under IEEE comparison for a finite threshold `c`: NaN compares
      false, +inf exceeds everything, -inf nothing. */
  predicate GreaterThan(e: Ext, c: real)
  {
    match e
    case Finite(v) => v > c
    case PosInf => true
    case NegInf => false
    case NaN => false
  }

  function Min(x: real, y: real): (r: real)
    ensures r <= x && r <= y
    ensures r == x || r == y
  {
    if x <= y then x else y
  }

  function Sum(s: seq<real>): real
  {
    if s == [] then 0.0 else s[0] + Sum(s[1..])
  }

  lemma {:induction false} SumNonNegative(s: seq<real>)
    ensures (forall k :: 0 <= k < |s| ==> s[k] >= 0.0) ==> Sum(s) >= 0.0
  {
    if s != [] {
      SumNonNegative(s[1..]);
    }
  }

  /** `np.mean`: the mean of an empty sequence is NaN, modelled as `None`. */
  function Mean(s: seq<real>): (r: Option<real>)
    ensures r.None? <==> s == []
    ensures r.Some? ==> r.value * (|s| as real) == Sum(s)
  {
    if s == [] then None else Some(Sum(s) / (|s| as real))
  }

  /** Python's `int(x)` on a float: truncation toward zero. */
  function Truncate(x: real): (r: int)
    ensures 0.0 <= x ==> 0 <= r && r as real <= x < r as real + 1.0
    ensures x < 0.0 ==> r <= 0 && r as real - 1.0 < x <= r as real
  {
    if x >= 0.0 then x.Floor else -((-x).Floor)
  }
}
