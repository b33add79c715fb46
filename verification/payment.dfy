/** Payment strategies: each one offers a discount rate and decides whether
    an amount is approved. Console tracing of the source is not modelled. */
module Payment {

  /** The credit limit a credit card gets when none is given. */
  const DefaultCreditLimit: real := 1000.0

  /** The discount the Pix method grants on the order value. */
  const PixDiscount: real := 0.05

  datatype PaymentMethod =
    | Pix
    | Credit(limit: real)
    | Mana

  /** A credit card with the default limit. */
  function DefaultCredit(): (p: PaymentMethod)
    ensures p.Credit? && p.limit == 1000.0
  {
    Credit(DefaultCreditLimit)
  }

  /** The fraction of the order value the method takes off. */
  function DiscountRate(p: PaymentMethod): (r: real)
    ensures 0.0 <= r < 1.0
    ensures r > 0.0 <==> p.Pix?
    ensures p.Pix? ==> r == 0.05
  {
    match p
    case Pix => PixDiscount
    case Credit(_) => 0.0
    case Mana => 0.0
  }

  /** Whether the method approves paying `amount`. Only a credit card can
      refuse, and it refuses every amount that reaches its limit. */
  predicate Approves(p: PaymentMethod, amount: real)
    ensures !Approves(p, amount) ==> p.Credit? && amount >= p.limit
    ensures p.Credit? && amount >= p.limit ==> !Approves(p, amount)
  {
    match p
    case Pix => true
    case Credit(limit) => amount < limit
    case Mana => true
  }

  /** Credit approves exactly the amounts strictly below the limit; an amount
      equal to the limit is refused. */
  lemma CreditApproval(limit: real, amount: real)
    ensures Approves(Credit(limit), amount) <==> amount < limit
    ensures !Approves(Credit(limit), limit)
  {
  }

  /** Pix and Mana approve every amount. */
  lemma AlwaysApproving(p: PaymentMethod, amount: real)
    requires p.Pix? || p.Mana?
    ensures Approves(p, amount)
  {
  }

  /** Only a credit card is ever refused, and only at or above its limit;
      raising the amount never turns a refusal into an approval. */
  lemma ApprovalMonotone(p: PaymentMethod, a: real, b: real)
    requires a <= b
    ensures Approves(p, b) ==> Approves(p, a)
    ensures !Approves(p, a) ==> p.Credit? && b >= p.limit
  {
  }
}
