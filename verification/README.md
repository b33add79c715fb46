# FlexOrder checkout, modelled in Dafny

A model of the pricing and checkout pipeline of `checkout_monolitico.py`
(FlexOrder design-patterns demo): payment strategies (Pix, credit card,
mana transfer), shipping strategies (normal, express, teleport), the order
component chain (a base order wrapped by large-order discounts and gift-wrap
fees in any order and depth), the order context that derives the discounted
value, shipping cost and final value, and the checkout facade that runs the
payment and, only on approval, registers the order with inventory and issues
an invoice.

Modules, one per component of the source:

- `Payment` (`payment.dfy`): `PaymentMethod = Pix | Credit(limit) | Mana`, discount rates and approval.
- `Shipping` (`shipping.dfy`): `ShippingMethod = Normal | Express | Teleport` and their costs.
- `OrderComponent` (`components.dfy`): `Component = Base(items) | LargeDiscount(inner) | GiftWrap(inner, fee)`, its value and description.
- `OrderContext` (`order.dfy`): `Order(component, payment, shipping)` and its totals.
- `Checkout` (`checkout.dfy`): the facade; the inventory and invoicing subsystems are an event log.
- `Demo` (`demo.dfy`): the three demonstration checkouts as concrete cases.

Amounts are Dafny `real`, i.e. exact decimals. A description is the item
count of the base order followed by one note token per decorator that added
text (`LargeDiscountNote`, `GiftWrapNote(fee)`), innermost first.

## Model

| member | source | states |
|---|---|---|
| Payment.DefaultCredit | checkout_monolitico.py:53-54 | a credit card built without a limit has limit 1000 |
| Payment.DiscountRate | checkout_monolitico.py:46-78 | every rate lies in [0, 1); it is positive exactly for Pix, where it is 0.05 (credit and mana give 0) |
| Payment.Approves | checkout_monolitico.py:41-75 | a refusal only ever comes from a credit card at or above its limit, and such a card always refuses |
| Payment.CreditApproval | checkout_monolitico.py:56-63 | credit approves iff the amount is strictly below the limit; an amount equal to the limit is refused |
| Payment.AlwaysApproving | checkout_monolitico.py:41-75 | Pix and Mana approve every amount |
| Payment.ApprovalMonotone | checkout_monolitico.py:41-75 | lowering an amount never turns an approval into a refusal; only a credit card refuses, and only at or above its limit |
| Shipping.Cost | checkout_monolitico.py:101-125 | for a non-negative order value the shipping cost is non-negative, and express then costs at least its 15.00 fee |
| Shipping.CostRates | checkout_monolitico.py:104-125 | normal is one twentieth of the value, express is one tenth of it above 15.00, teleport is 50.00 for every value |
| Shipping.CostMonotone | checkout_monolitico.py:104-125 | cost never decreases with the value, strictly increases for normal and express, and is constant for teleport |
| OrderComponent.DefaultGiftWrap | checkout_monolitico.py:205-207 | a gift-wrap layer built without a fee charges 5.00 |
| OrderComponent.Sum | checkout_monolitico.py:159 | the item sum is non-negative when every item value is |
| OrderComponent.SumAppend | checkout_monolitico.py:159 | summing two item lists one after the other gives the sum of the two sums, so appending an item adds exactly its value |
| OrderComponent.SumItems | checkout_monolitico.py:157-159 | the left-to-right summation loop run when a base order is built computes exactly `Sum`, and is non-negative when every item is (a standalone statement about the loop; `Value` uses `Sum` directly) |
| OrderComponent.Value | checkout_monolitico.py:154-212 | with non-negative items and fees every layer of the chain has a non-negative value |
| OrderComponent.Describe | checkout_monolitico.py:164-215 | a description always carries the item count of the chain's base order, through every decorator |
| OrderComponent.BaseOrder | checkout_monolitico.py:157-165 | a base order is worth the sum of its items and is described by its item count with no notes |
| OrderComponent.LargeDiscountValue | checkout_monolitico.py:188-193 | above 500 the value is the inner value times 0.9, at or below 500 (500 included) it is unchanged; the value drops iff the inner value exceeds 500, and never rises |
| OrderComponent.LargeDiscountDescription | checkout_monolitico.py:195-199 | the discount note is appended iff the inner (undiscounted) value exceeds 500, otherwise the description is the inner one; the description changes iff the value dropped |
| OrderComponent.GiftWrapLayer | checkout_monolitico.py:205-215 | gift wrap always adds its fee (5.00 by default) and always appends its fee note, with no threshold |
| OrderComponent.DecoratorOrderMatters | checkout_monolitico.py:185-215 | when the fee lifts the value over 500, wrap-then-discount is worth (v + fee) * 0.9 and strictly less than discount-then-wrap's v + fee, and only the former adds a discount note at these two layers |
| OrderComponent.DecoratorOrderAboveThreshold | checkout_monolitico.py:185-215 | with a non-negative fee and an inner value above 500, discount-then-wrap costs a tenth of the fee more than wrap-then-discount |
| OrderComponent.ChainValue | checkout_monolitico.py:157-212 | over any chain the value is at most the item sum plus every gift-wrap fee, with equality iff no discount layer saw an inner value above 500 |
| OrderComponent.ChainNotes | checkout_monolitico.py:164-215 | over any chain the description holds one note per gift-wrap layer plus one per discount layer that fired, and a discount note iff some discount fired |
| OrderComponent.DiscountNoteIffReduced | checkout_monolitico.py:188-199 | over any chain the description mentions the large-order discount iff the value is below the item sum plus fees |
| OrderContext.DiscountedValue | checkout_monolitico.py:233-241 | Pix pays 95% of the component value, credit and mana pay it unchanged; the result never exceeds the component value nor falls below zero for valid chains |
| OrderContext.ShippingCost | checkout_monolitico.py:243-246 | shipping on a valid order is non-negative |
| OrderContext.FinalValue | checkout_monolitico.py:248-252 | the final value of a valid order is at least the discounted value |
| OrderContext.Describe | checkout_monolitico.py:259-261 | the order's description is its component's, with the base order's item count |
| OrderContext.ProcessPayment | checkout_monolitico.py:254-257 | payment on the order is approved iff the method is not a credit card or the final value is strictly below its limit |
| OrderContext.FinalValueByShipping | checkout_monolitico.py:248-252 | the final value is the discounted value times 1.05 (normal), times 1.10 plus 15 (express), or plus 50 (teleport) |
| OrderContext.ShippingOnDiscountedValue | checkout_monolitico.py:243-246 | shipping is priced on the discounted value: with Pix, normal or express shipping and a component value above zero it is strictly below the cost of the raw value; without a discount the two agree |
| OrderContext.PaymentVerdict | checkout_monolitico.py:254-257 | payment is approved iff the payment method accepts the final value; credit with a final value equal to its limit is refused |
| OrderContext.FinalValueMonotone | checkout_monolitico.py:248-252 | with the same strategies, a more valuable component never gives a smaller final value |
| Checkout.CompleteTransaction | checkout_monolitico.py:295-320 | returns the payment verdict on the final value; on approval exactly an inventory registration of the order and then an invoice for the order carrying that final value are appended, on refusal nothing is |
| Demo.ScenarioOneTotals | checkout_monolitico.py:333-349 | items 150 + 80 with Pix and normal: discounted 218.5, shipping 10.925, final 229.425, approved |
| Demo.ScenarioTwoTotals | checkout_monolitico.py:353-372 | item 600, discount then gift wrap, credit and express: value 545, shipping 69.5, final 614.5, approved |
| Demo.ScenarioThreeTotals | checkout_monolitico.py:376-390 | items 300 + 120, gift wrap, mana and teleport: value 425, shipping 50, final 475, approved |
| Demo.RunDemo | checkout_monolitico.py:327-390 | the three checkouts through one facade are all approved, each registering its order and invoicing 229.425, 614.5 and 475 respectively |

## Left out

- Console output: every `print` in the strategies, decorators, facade and subsystems is tracing with no effect on results.
- Floating point: amounts are exact reals, so binary-float artefacts of the source (0.9, 0.05 and 0.10 are not exact binary fractions, so e.g. 229.425 is only approximately computed there) are not captured.
- Description text: the Portuguese wording and the `%.2f` rendering of the fee are replaced by note tokens.
- The inventory and invoicing subsystems only print; they are modelled as events the facade appends to a log.
- Abstract base classes and the dict representation of items; an item's name never enters a computation.
- Item-list aliasing: the source keeps the caller's list by reference, caches its sum once at construction and reads its length live for the description, so appending to the list afterwards changes the described item count but not the cached value, and editing an item's value afterwards changes neither; the model holds an immutable sequence, so later mutation of the item list or items is not modelled.
- Input validation: the source accepts negative item values and fees; non-negativity (`Valid`) is only a hypothesis of the bounds lemmas.
- The recomputation of the discounted and final values inside the source's calls (and hence the repeated trace lines) is not observable in a pure model.
