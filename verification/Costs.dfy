/** Costs as floating-point numbers: they may be infinite, or no number at all. */
module Costs {
  datatype Cost = Finite(value: real) | Infinite | MinusInfinite | Undefined

  /** What is kept of the compile costs: neither undefined nor less than any number. */
  type Amount = c: Cost | c.Finite? || c.Infinite? witness Finite(0.0)

  const NOTHING: Amount := Finite(0.0)

  function Plus(a: Cost, b: Cost): Cost {
    if a.Finite? && b.Finite? then Finite(a.value + b.value)
    else if a.Finite? then b
    else if b.Finite? || a == b then a
    else Undefined
  }

  /** Nothing is greater than an undefined cost, nor less. */
  predicate Greater(a: Cost, b: Cost) {
    || (a.Finite? && b.Finite? && a.value > b.value)
    || (a.Infinite? && b.Finite?)
    || (b.MinusInfinite? && (a.Finite? || a.Infinite?))
  }

  predicate AtMost(a: Amount, b: Amount) { !Greater(a, b) }

  /** The first unless the second is greater. */
  function MaxAmount(a: Amount, b: Cost): Amount { if Greater(b, a) then b else a }

  function Total(costs: seq<Cost>): Cost {
    if costs == [] then NOTHING else Plus(Total(costs[..|costs| - 1]), costs[|costs| - 1])
  }

  /** A cost multiplied by a number that is not negative. */
  function Scaled(c: Cost, factor: real): Cost
    requires factor >= 0.0
  {
    match c
    case Finite(x) => Finite(x * factor)
    case _ => if factor == 0.0 then Undefined else c
  }

  /** However much is added, an undefined cost stays undefined. */
  lemma UndefinedStays(a: Cost, b: Cost)
    requires a.Undefined? || b.Undefined?
    ensures Plus(a, b).Undefined?
  {
  }
}
