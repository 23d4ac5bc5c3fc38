/** The JavaScript number values that the coin-flip handler compares and
    doubles, with exact reals in place of IEEE-754 doubles. */
module JsNumber {

  /** What `parseFloat` can return: not-a-number, a finite value, or one of
      the two infinities. Rounding to the nearest double is not modelled. */
  datatype Number = NaN | Finite(value: real) | PosInfinity | NegInfinity

  /** The JavaScript `a > b` on numbers: false whenever either side is NaN. */
  predicate GreaterThan(a: Number, b: Number)
  {
    match (a, b)
    case (NaN, _) => false
    case (_, NaN) => false
    case (PosInfinity, _) => !b.PosInfinity?
    case (_, NegInfinity) => !a.NegInfinity?
    case (Finite(x), Finite(y)) => x > y
    case (_, _) => false
  }

  /** `n * 2`: NaN and the infinities are fixed points, finite values double. */
  function Double(n: Number): (r: Number)
    ensures r.NaN? <==> n.NaN?
    ensures r.PosInfinity? <==> n.PosInfinity?
    ensures r.NegInfinity? <==> n.NegInfinity?
    ensures n.Finite? ==> r.Finite? && r.value == 2.0 * n.value
  {
    match n
    case Finite(x) => Finite(2.0 * x)
    case _ => n
  }

  /** The order `>` induces on the extended reals, stated independently of
      `GreaterThan`: every non-NaN number has a rank, and `>` compares ranks. */
  function Rank(n: Number): (r: int)
    requires !n.NaN?
    ensures n.PosInfinity? <==> r == 1
    ensures n.NegInfinity? <==> r == -1
  {
    match n
    case NegInfinity => -1
    case Finite(_) => 0
    case PosInfinity => 1
  }

  /** NaN is incomparable: it is neither greater nor smaller than anything. */
  lemma NaNIncomparable(n: Number)
    ensures !GreaterThan(NaN, n) && !GreaterThan(n, NaN)
  {
  }

  /** On non-NaN values `>` is the lexicographic order on (rank, finite
      value), so it agrees with `>` on the reals for finite operands. */
  lemma GreaterThanIsRankOrder(a: Number, b: Number)
    requires !a.NaN? && !b.NaN?
    ensures GreaterThan(a, b) <==>
              Rank(a) > Rank(b) || (a.Finite? && b.Finite? && a.value > b.value)
  {
  }

  /** `>` is irreflexive and transitive: a strict order apart from NaN. */
  lemma GreaterThanStrictOrder(a: Number, b: Number, c: Number)
    ensures !GreaterThan(a, a)
    ensures GreaterThan(a, b) && GreaterThan(b, c) ==> GreaterThan(a, c)
  {
  }
}
