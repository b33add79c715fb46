/** The order component chain: a base order holding items, wrapped by any
    number of large-order discounts and gift-wrap fees, in any order. */
module OrderComponent {

  /** An inner value strictly above this earns the large-order discount. */
  const LargeOrderThreshold: real := 500.0

  /** The factor the large-order discount multiplies the value by. */
  const LargeOrderFactor: real := 0.9

  /** The gift-wrap fee when none is given. */
  const DefaultGiftWrapFee: real := 5.0

  /** An item of an order. Its name never enters a computation. */
  datatype Item = Item(name: string, value: real)

  datatype Component =
    | Base(items: seq<Item>)
    | LargeDiscount(inner: Component)
    | GiftWrap(inner: Component, fee: real)

  /** A note a decorator adds to the description. */
  datatype Note = LargeDiscountNote | GiftWrapNote(fee: real)

  /** A description: the item count of the base order, then the notes of
      the decorators, innermost first. */
  datatype Description = Description(itemCount: nat, notes: seq<Note>)

  /** A gift-wrap layer with the default fee. */
  function DefaultGiftWrap(inner: Component): (c: Component)
    ensures c.GiftWrap? && c.inner == inner && c.fee == 5.0
  {
    GiftWrap(inner, DefaultGiftWrapFee)
  }

  /** No item has a negative value. */
  ghost predicate NonNegativeItems(items: seq<Item>)
  {
    forall i :: 0 <= i < |items| ==> items[i].value >= 0.0
  }

  /** The sum of the item values, added left to right; it is never negative
      when no item is. */
  function Sum(items: seq<Item>): (r: real)
    ensures NonNegativeItems(items) ==> r >= 0.0
  {
    if |items| == 0 then 0.0 else Sum(items[..|items| - 1]) + items[|items| - 1].value
  }

  /** Summing two lists of items one after the other gives the sum of the
      two sums: in particular appending an item adds exactly its value. */
  lemma {:induction false} SumAppend(a: seq<Item>, b: seq<Item>)
    ensures Sum(a + b) == Sum(a) + Sum(b)
    decreases |b|
  {
    if |b| == 0 {
      assert a + b == a;
    } else {
      var b' := b[..|b| - 1];
      assert (a + b)[..|a + b| - 1] == a + b';
      SumAppend(a, b');
    }
  }

  /** The summation loop the base order runs once when it is built, written
      as a method. The model's `Value` uses the recursive `Sum` directly, so
      this method is the statement that the loop computes that sum. */
  method SumItems(items: seq<Item>) returns (total: real)
    ensures total == Sum(items)
    ensures NonNegativeItems(items) ==> total >= 0.0
  {
    total := 0.0;
    var i := 0;
    while i < |items|
      invariant 0 <= i <= |items|
      invariant total == Sum(items[..i])
    {
      assert items[..i + 1][..i] == items[..i];
      total := total + items[i].value;
      i := i + 1;
    }
    assert items[..i] == items;
  }

  /** The base order at the root of the chain. */
  function Root(c: Component): (b: Component)
    ensures b.Base?
    ensures c.Base? ==> b == c
  {
    match c
    case Base(_) => c
    case LargeDiscount(inner) => Root(inner)
    case GiftWrap(inner, _) => Root(inner)
  }

  /** Item values and fees are non-negative throughout the chain. The source
      does not check this; it is only a hypothesis of the lemmas below. */
  ghost predicate Valid(c: Component)
  {
    match c
    case Base(items) => NonNegativeItems(items)
    case LargeDiscount(inner) => Valid(inner)
    case GiftWrap(inner, fee) => fee >= 0.0 && Valid(inner)
  }

  /** The value of the component, each layer transforming the value of the
      one it wraps. */
  function Value(c: Component): (r: real)
    ensures Valid(c) ==> r >= 0.0
  {
    match c
    case Base(items) => Sum(items)
    case LargeDiscount(inner) =>
      var v := Value(inner);
      if v > LargeOrderThreshold then v * LargeOrderFactor else v
    case GiftWrap(inner, fee) => Value(inner) + fee
  }

  /** The description of the component. The discount layer decides whether
      to add its note by testing the value of the layer it wraps, the same
      test its value uses. */
  function Describe(c: Component): (d: Description)
    ensures d.itemCount == |Root(c).items|
  {
    match c
    case Base(items) => Description(|items|, [])
    case LargeDiscount(inner) =>
      var d := Describe(inner);
      if Value(inner) > LargeOrderThreshold then Description(d.itemCount, d.notes + [LargeDiscountNote]) else d
    case GiftWrap(inner, fee) =>
      var d := Describe(inner);
      Description(d.itemCount, d.notes + [GiftWrapNote(fee)])
  }

  /** A base order is worth the sum of its items and is described by its
      item count alone. */
  lemma BaseOrder(items: seq<Item>)
    ensures Value(Base(items)) == Sum(items)
    ensures Describe(Base(items)) == Description(|items|, [])
  {
  }

  /** The large-order discount takes 10% off exactly when the inner value is
      strictly above 500; an inner value of exactly 500 is left alone, and the
      discount never raises the value. */
  lemma LargeDiscountValue(inner: Component)
    ensures Value(inner) > 500.0 ==> Value(LargeDiscount(inner)) == Value(inner) * 0.9
    ensures Value(inner) <= 500.0 ==> Value(LargeDiscount(inner)) == Value(inner)
    ensures Value(LargeDiscount(inner)) < Value(inner) <==> Value(inner) > 500.0
    ensures Value(LargeDiscount(inner)) <= Value(inner)
  {
  }

  /** The discount note is added exactly when the discount actually lowered
      the value; otherwise the description passes through unchanged. */
  lemma LargeDiscountDescription(inner: Component)
    ensures Value(inner) > 500.0 ==>
      Describe(LargeDiscount(inner)) == Description(Describe(inner).itemCount, Describe(inner).notes + [LargeDiscountNote])
    ensures Value(inner) <= 500.0 ==> Describe(LargeDiscount(inner)) == Describe(inner)
    ensures Describe(LargeDiscount(inner)) != Describe(inner) <==> Value(LargeDiscount(inner)) < Value(inner)
  {
  }

  /** Gift wrap always adds its fee and always adds its note, whatever the
      inner value, zero included. */
  lemma GiftWrapLayer(inner: Component, fee: real)
    ensures Value(GiftWrap(inner, fee)) == Value(inner) + fee
    ensures Describe(GiftWrap(inner, fee)) == Description(Describe(inner).itemCount, Describe(inner).notes + [GiftWrapNote(fee)])
    ensures Value(DefaultGiftWrap(inner)) == Value(inner) + 5.0
  {
  }

  /** Layer order matters: when the fee is what lifts the value past the
      threshold, wrapping first and discounting second gives a different
      value from discounting first and wrapping second. */
  lemma DecoratorOrderMatters(inner: Component, fee: real)
    requires Value(inner) <= 500.0 < Value(inner) + fee
    ensures Value(LargeDiscount(GiftWrap(inner, fee))) == (Value(inner) + fee) * 0.9
    ensures Value(GiftWrap(LargeDiscount(inner), fee)) == Value(inner) + fee
    ensures Value(LargeDiscount(GiftWrap(inner, fee))) < Value(GiftWrap(LargeDiscount(inner), fee))
    ensures Describe(LargeDiscount(GiftWrap(inner, fee))).notes == Describe(inner).notes + [GiftWrapNote(fee), LargeDiscountNote]
    ensures Describe(GiftWrap(LargeDiscount(inner), fee)).notes == Describe(inner).notes + [GiftWrapNote(fee)]
  {
  }

  /** Above the threshold both orders discount, but the fee escapes the
      discount only when it is added after it. */
  lemma DecoratorOrderAboveThreshold(inner: Component, fee: real)
    requires Value(inner) > 500.0 && fee >= 0.0
    ensures Value(GiftWrap(LargeDiscount(inner), fee)) - Value(LargeDiscount(GiftWrap(inner, fee))) == fee * 0.1
  {
  }

  /** The sum of the gift-wrap fees over the whole chain. */
  function Fees(c: Component): real
  {
    match c
    case Base(_) => 0.0
    case LargeDiscount(inner) => Fees(inner)
    case GiftWrap(inner, fee) => Fees(inner) + fee
  }

  /** The number of gift-wrap layers in the chain. */
  function GiftWraps(c: Component): nat
  {
    match c
    case Base(_) => 0
    case LargeDiscount(inner) => GiftWraps(inner)
    case GiftWrap(inner, _) => GiftWraps(inner) + 1
  }

  /** The number of discount layers whose inner value exceeds the threshold,
      that is, the layers that actually take 10% off. */
  function ActiveDiscounts(c: Component): nat
  {
    match c
    case Base(_) => 0
    case LargeDiscount(inner) => ActiveDiscounts(inner) + (if Value(inner) > LargeOrderThreshold then 1 else 0)
    case GiftWrap(inner, _) => ActiveDiscounts(inner)
  }

  /** Over a whole chain, the value never exceeds the item sum plus all
      fees, and it equals that amount exactly when no discount layer fired. */
  lemma {:induction false} ChainValue(c: Component)
    ensures Value(c) <= Sum(Root(c).items) + Fees(c)
    ensures Value(c) == Sum(Root(c).items) + Fees(c) <==> ActiveDiscounts(c) == 0
  {
    match c
    case Base(_) =>
    case LargeDiscount(inner) =>
      ChainValue(inner);
    case GiftWrap(inner, _) =>
      ChainValue(inner);
  }

  /** Over a whole chain, every gift-wrap layer and every discount layer
      that fired left exactly one note, and the description carries a
      discount note exactly when some discount fired. */
  lemma {:induction false} ChainNotes(c: Component)
    ensures |Describe(c).notes| == GiftWraps(c) + ActiveDiscounts(c)
    ensures LargeDiscountNote in Describe(c).notes <==> ActiveDiscounts(c) > 0
    ensures forall fee :: GiftWrapNote(fee) in Describe(c).notes ==> GiftWraps(c) > 0
  {
    match c
    case Base(_) =>
    case LargeDiscount(inner) =>
      ChainNotes(inner);
    case GiftWrap(inner, fee) =>
      ChainNotes(inner);
  }

  /** The description and the value agree over a whole chain: the
      description mentions a large-order discount exactly when the value is
      below the item sum plus all fees. */
  lemma DiscountNoteIffReduced(c: Component)
    ensures LargeDiscountNote in Describe(c).notes <==> Value(c) < Sum(Root(c).items) + Fees(c)
  {
    ChainValue(c);
    ChainNotes(c);
  }
}
