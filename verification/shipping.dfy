/** Shipping strategies: each one prices delivery from the order value. */
module Shipping {

  const NormalRate: real := 0.05
  const ExpressRate: real := 0.10
  const ExpressFee: real := 15.0
  const TeleportCost: real := 50.0

  datatype ShippingMethod = Normal | Express | Teleport

  /** The shipping cost of an order worth `v`. */
  function Cost(s: ShippingMethod, v: real): (c: real)
    ensures v >= 0.0 ==> c >= 0.0
    ensures s.Express? && v >= 0.0 ==> c >= 15.0
  {
    match s
    case Normal => v * NormalRate
    case Express => v * ExpressRate + ExpressFee
    case Teleport => TeleportCost
  }

  /** The rates behind each method: normal shipping is one twentieth of the
      value, express is one tenth of it on top of a 15.00 fee, teleport is
      50.00 whatever the value. */
  lemma CostRates(v: real)
    ensures Cost(Normal, v) * 20.0 == v
    ensures (Cost(Express, v) - 15.0) * 10.0 == v
    ensures Cost(Teleport, v) == 50.0
  {
  }

  /** A dearer order never ships for less; teleport does not depend on the
      value at all. */
  lemma CostMonotone(s: ShippingMethod, a: real, b: real)
    requires a <= b
    ensures Cost(s, a) <= Cost(s, b)
    ensures s.Teleport? ==> Cost(s, a) == Cost(s, b)
    ensures !s.Teleport? && a < b ==> Cost(s, a) < Cost(s, b)
  {
  }
}
