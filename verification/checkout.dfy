/** The checkout facade: prices the order, runs the payment and, only on
    approval, notifies the inventory and invoicing subsystems. */
module Checkout {
  import opened OrderContext

  /** What a subsystem receives from the facade: both get the order; the
      inventory reads its description, and the invoice is issued for the
      final value passed alongside it. */
  datatype Event =
    | InventoryRegistered(order: Order)
    | InvoiceIssued(order: Order, total: real)

  /** Completes the transaction for `o`. `log` holds what the subsystems have
      received so far and `log'` what they hold afterwards. */
  method CompleteTransaction(o: Order, log: seq<Event>) returns (approved: bool, log': seq<Event>)
    ensures approved <==> Payment.Approves(o.payment, FinalValue(o))
    ensures approved ==>
      log' == log + [InventoryRegistered(o), InvoiceIssued(o, FinalValue(o))]
    ensures !approved ==> log' == log
  {
    var finalValue := FinalValue(o);
    if ProcessPayment(o) {
      log' := log + [InventoryRegistered(o)];
      log' := log' + [InvoiceIssued(o, finalValue)];
      approved := true;
    } else {
      log' := log;
      approved := false;
    }
  }
}
