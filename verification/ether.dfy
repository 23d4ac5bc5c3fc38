/** Ether amounts and their conversion to wei, the indivisible unit in which
    transfers and balances are expressed on the network. */
module Ether {
  import opened Wrappers
  import opened JsNumber

  /** Wei per ether: ten to the eighteenth. */
  const WeiPerEther: int := 1_000_000_000_000_000_000

  /** The exact ether value of a wei amount, as `formatEther` prints it and
      `parseFloat` reads it back (without rounding to a double). */
  function EtherOf(wei: int): (r: real)
    ensures (r > 0.0) <==> (wei > 0)
    ensures r * WeiPerEther as real == wei as real
  {
    wei as real / WeiPerEther as real
  }

  /** An ether amount that is a whole number of wei (at most eighteen
      decimals), the only kind `parseEther` accepts. */
  predicate WholeWei(x: real)
  {
    (x * WeiPerEther as real).Floor as real == x * WeiPerEther as real
  }

  /** `parseEther(n.toString())`: a finite number with a whole number of wei
      converts exactly; NaN, the infinities and amounts with more than
      eighteen decimals make `parseEther` throw, shown here as `None`. */
  function ToWei(n: Number): (r: Option<int>)
    ensures r.Some? ==> n.Finite? && EtherOf(r.value) == n.value
    ensures r.Some? <==> n.Finite? && WholeWei(n.value)
  {
    match n
    case Finite(x) =>
      var w := x * WeiPerEther as real;
      if w.Floor as real == w then Some(w.Floor) else None
    case _ => None
  }

  /** Reading a wei amount as ether and converting it back gives the same
      wei amount. */
  lemma ToWeiEtherOf(wei: int)
    ensures ToWei(Finite(EtherOf(wei))) == Some(wei)
  {
  }
}
