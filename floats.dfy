/** Numbers as the indicator engine sees them.

    A pandas column holds float64 values. The model leaves rounding out and
    keeps only the two things the engine relies on:
    - "no value" (NaN), the marker rolling windows and `diff` produce, and
    - the infinities that a division by zero produces.
    A series that can only hold finite values or NaN is a `seq<Option<real>>`;
    the ratio of the averages and the RSI built from it can pass through
    infinity and are `Float` values. */
module Floats {

  datatype Option<+T> = None | Some(value: T)

  /** A float64 without rounding: a real, an infinity, or NaN.
      Signed zeros are not distinguished. */
  datatype Float = Finite(v: real) | PosInf | NegInf | NaN

  /** A NaN-or-finite value as a float. */
  function FromOption(o: Option<real>): (f: Float)
    ensures f.NaN? <==> o.None?
    ensures o.Some? ==> f == Finite(o.value)
  {
    match o
    case None => NaN
    case Some(x) => Finite(x)
  }

  predicate IsInfinite(a: Float) {
    a == PosInf || a == NegInf
  }

  /** Negation: NaN stays NaN, the infinities swap, a real is negated. */
  function Neg(a: Float): (r: Float)
    ensures r.NaN? <==> a.NaN?
    ensures a.Finite? ==> r.Finite? && r.v + a.v == 0.0
    ensures a == PosInf <==> r == NegInf
  {
    match a
    case Finite(x) => Finite(-x)
    case PosInf => NegInf
    case NegInf => PosInf
    case NaN => NaN
  }

  /** IEEE-754 addition on the extended reals: NaN absorbs, inf + -inf is NaN. */
  function Add(a: Float, b: Float): (r: Float)
    ensures a.NaN? || b.NaN? ==> r.NaN?
    ensures (a == PosInf && b == NegInf) || (a == NegInf && b == PosInf) ==> r.NaN?
    ensures a.Finite? && b.Finite? ==> r.Finite? && r.v - b.v == a.v
    ensures a.Finite? && IsInfinite(b) ==> r == b
    ensures IsInfinite(a) && b.Finite? ==> r == a
  {
    match (a, b)
    case (NaN, _) => NaN
    case (_, NaN) => NaN
    case (PosInf, NegInf) => NaN
    case (NegInf, PosInf) => NaN
    case (PosInf, _) => PosInf
    case (NegInf, _) => NegInf
    case (_, PosInf) => PosInf
    case (_, NegInf) => NegInf
    case (Finite(x), Finite(y)) => Finite(x + y)
  }

  function Sub(a: Float, b: Float): (r: Float)
    ensures a.NaN? || b.NaN? ==> r.NaN?
    ensures a.Finite? && b.Finite? ==> r.Finite? && r.v + b.v == a.v
    ensures a.Finite? && b == PosInf ==> r == NegInf
    ensures a.Finite? && b == NegInf ==> r == PosInf
    ensures IsInfinite(a) && b.Finite? ==> r == a
  {
    Add(a, Neg(b))
  }

  /** IEEE-754 division on the extended reals: x/0 is an infinity of the sign
      of x, 0/0 and inf/inf are NaN, a finite value over an infinity is 0.
      Division never fails. */
  function Div(a: Float, b: Float): (r: Float)
    ensures a.NaN? || b.NaN? ==> r.NaN?
    ensures a.Finite? && b.Finite? && b.v != 0.0 ==> r.Finite? && r.v * b.v == a.v
    ensures a.Finite? && b.Finite? && b.v == 0.0 ==>
      && (r == PosInf <==> a.v > 0.0)
      && (r == NegInf <==> a.v < 0.0)
      && (r.NaN? <==> a.v == 0.0)
    ensures a.Finite? && IsInfinite(b) ==> r == Finite(0.0)
    ensures IsInfinite(a) && IsInfinite(b) ==> r.NaN?
  {
    match (a, b)
    case (NaN, _) => NaN
    case (_, NaN) => NaN
    case (Finite(_), PosInf) => Finite(0.0)
    case (Finite(_), NegInf) => Finite(0.0)
    case (Finite(x), Finite(y)) =>
      if y != 0.0 then Finite(x / y)
      else if x > 0.0 then PosInf
      else if x < 0.0 then NegInf
      else NaN
    case (_, Finite(y)) =>
      // a is an infinity
      if y < 0.0 then Neg(a) else a
    case (_, _) => NaN
  }
}
