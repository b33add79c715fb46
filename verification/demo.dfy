/** The three demonstration checkouts, as concrete cases of the model. */
module Demo {
  import opened Payment
  import opened Shipping
  import opened OrderComponent
  import opened OrderContext
  import opened Checkout

  /** PIX with normal shipping on two items worth 150 and 80. */
  function ScenarioOne(): Order
  {
    Order(Base([Item("Capa da Invisibilidade", 150.0), Item("Poção de Voo", 80.0)]), Pix, Normal)
  }

  /** A 600 item, discounted then gift wrapped, paid by credit with express
      shipping. */
  function ScenarioTwo(): Order
  {
    Order(DefaultGiftWrap(LargeDiscount(Base([Item("Cristal Mágico", 600.0)]))), DefaultCredit(), Express)
  }

  /** Two items worth 300 and 120, gift wrapped, paid by mana with teleport
      shipping. */
  function ScenarioThree(): Order
  {
    Order(DefaultGiftWrap(Base([Item("Varinha Élfica", 300.0), Item("Pergaminho Antigo", 120.0)])), Mana, Teleport)
  }

  lemma ScenarioOneTotals()
    ensures DiscountedValue(ScenarioOne()) == 218.5
    ensures ShippingCost(ScenarioOne()) == 10.925
    ensures FinalValue(ScenarioOne()) == 229.425
    ensures ProcessPayment(ScenarioOne())
    ensures OrderContext.Describe(ScenarioOne()) == Description(2, [])
  {
    var items := ScenarioOne().component.items;
    assert items[..1][..0] == [];
    assert items[..1] == [items[0]];
    assert Sum(items) == 230.0;
  }

  lemma ScenarioTwoTotals()
    ensures Value(ScenarioTwo().component) == 545.0
    ensures DiscountedValue(ScenarioTwo()) == 545.0
    ensures ShippingCost(ScenarioTwo()) == 69.5
    ensures FinalValue(ScenarioTwo()) == 614.5
    ensures ProcessPayment(ScenarioTwo())
    ensures OrderContext.Describe(ScenarioTwo()) == Description(1, [LargeDiscountNote, GiftWrapNote(5.0)])
  {
  }

  lemma ScenarioThreeTotals()
    ensures Value(ScenarioThree().component) == 425.0
    ensures ShippingCost(ScenarioThree()) == 50.0
    ensures FinalValue(ScenarioThree()) == 475.0
    ensures ProcessPayment(ScenarioThree())
    ensures OrderContext.Describe(ScenarioThree()) == Description(2, [GiftWrapNote(5.0)])
  {
    var items := ScenarioThree().component.inner.items;
    assert items[..1][..0] == [];
    assert items[..1] == [items[0]];
    assert Sum(items) == 420.0;
  }

  /** Runs the three checkouts in turn through one facade; all three are
      approved, and each leaves a registration and an invoice for its own
      final value. */
  method RunDemo() returns (results: seq<bool>, log: seq<Event>)
    ensures results == [true, true, true]
    ensures |log| == 6
    ensures log[0] == InventoryRegistered(ScenarioOne()) && log[1] == InvoiceIssued(ScenarioOne(), 229.425)
    ensures log[2] == InventoryRegistered(ScenarioTwo()) && log[3] == InvoiceIssued(ScenarioTwo(), 614.5)
    ensures log[4] == InventoryRegistered(ScenarioThree()) && log[5] == InvoiceIssued(ScenarioThree(), 475.0)
  {
    ScenarioOneTotals();
    ScenarioTwoTotals();
    ScenarioThreeTotals();
    var ok1, ok2, ok3;
    ok1, log := CompleteTransaction(ScenarioOne(), []);
    ok2, log := CompleteTransaction(ScenarioTwo(), log);
    ok3, log := CompleteTransaction(ScenarioThree(), log);
    results := [ok1, ok2, ok3];
  }
}
