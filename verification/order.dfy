/** The order context: one component chain bound to one payment method and
    one shipping method, from which the totals are derived. */
module OrderContext {
  import opened Payment
  import opened Shipping
  import opened OrderComponent

  datatype Order = Order(component: Component, payment: PaymentMethod, shipping: ShippingMethod)

  /** The component value after the payment method's discount, which is
      applied only when its rate is positive. */
  function DiscountedValue(o: Order): (r: real)
    ensures o.payment.Pix? ==> r == Value(o.component) * 0.95
    ensures !o.payment.Pix? ==> r == Value(o.component)
    ensures Valid(o.component) ==> 0.0 <= r <= Value(o.component)
  {
    var v := Value(o.component);
    var rate := DiscountRate(o.payment);
    if rate > 0.0 then v * (1.0 - rate) else v
  }

  /** The shipping cost, priced on the discounted value. */
  function ShippingCost(o: Order): (r: real)
    ensures Valid(o.component) ==> r >= 0.0
  {
    Cost(o.shipping, DiscountedValue(o))
  }

  /** The amount the customer pays: discounted value plus shipping. */
  function FinalValue(o: Order): (r: real)
    ensures Valid(o.component) ==> r >= DiscountedValue(o) >= 0.0
  {
    DiscountedValue(o) + ShippingCost(o)
  }

  /** The payment method's verdict on the final value. */
  predicate ProcessPayment(o: Order)
    ensures ProcessPayment(o) <==> (o.payment.Credit? ==> FinalValue(o) < o.payment.limit)
  {
    Approves(o.payment, FinalValue(o))
  }

  /** The order is described by its component chain. */
  function Describe(o: Order): (d: Description)
    ensures d.itemCount == |Root(o.component).items|
  {
    OrderComponent.Describe(o.component)
  }

  /** The final value for each shipping method, in terms of the discounted
      value `d`: normal pays d * 1.05, express d * 1.10 + 15, teleport d + 50. */
  lemma FinalValueByShipping(o: Order)
    ensures o.shipping.Normal? ==> FinalValue(o) == DiscountedValue(o) * 1.05
    ensures o.shipping.Express? ==> FinalValue(o) == DiscountedValue(o) * 1.10 + 15.0
    ensures o.shipping.Teleport? ==> FinalValue(o) == DiscountedValue(o) + 50.0
  {
  }

  /** Shipping is priced on the discounted value, not on the raw component
      value: with a discounting method and a value-based shipping method the
      cost is strictly lower than the raw value would give, and without a
      discount the two agree. */
  lemma ShippingOnDiscountedValue(o: Order)
    ensures !o.payment.Pix? ==> ShippingCost(o) == Cost(o.shipping, Value(o.component))
    ensures o.payment.Pix? && !o.shipping.Teleport? && Value(o.component) > 0.0 ==>
      ShippingCost(o) < Cost(o.shipping, Value(o.component))
  {
  }

  /** Payment is approved exactly when the method accepts the final value:
      always for Pix and Mana, and for credit only strictly below the limit. */
  lemma PaymentVerdict(o: Order)
    ensures ProcessPayment(o) <==> Approves(o.payment, FinalValue(o))
    ensures o.payment.Credit? && FinalValue(o) == o.payment.limit ==> !ProcessPayment(o)
  {
  }

  /** With the same strategies, a more valuable component never yields a
      smaller final value. */
  lemma FinalValueMonotone(o: Order, c: Component)
    requires Value(o.component) <= Value(c)
    ensures FinalValue(o) <= FinalValue(o.(component := c))
  {
  }
}
