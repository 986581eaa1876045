/** How the modules meet: a payment the delivery or wallet service initiates is routed by the
    webhook to the handler that reads the very key the initiator wrote, and the references the
    wallet mints for its own ledger rows are never mistaken for gateway payments. */
module Pipeline {
  import opened Wrappers
  import opened Store
  import opened Refs
  import Delivery
  import Wallet
  import Payment
  import PaymentRoute
  import Money

  /** A delivery reference routes to the delivery handler, and that handler looks the intent up
      under the key `initiate_delivery_payment` saved it under. */
  lemma DeliveryRefReachesItsHandler(hex: string)
    ensures PaymentRoute.HandlerFor(Delivery.DeliveryTxRef(hex)) == Some(DeliveryHandler)
    ensures Payment.PaymentKey(DeliveryHandler, Delivery.DeliveryTxRef(hex)) == PendingKey("delivery", Delivery.DeliveryTxRef(hex))
  {
    var r := Delivery.DeliveryTxRef(hex);
    assert StartsWith(r, PaymentRoute.PrefixOf(DeliveryHandler));
    PaymentRoute.HandlerForMatchesPrefix(r, DeliveryHandler);
  }

  /** A top-up reference routes to the top-up handler, which reads the key the wallet service
      saved the top-up intent under. */
  lemma TopUpRefReachesItsHandler(hex: string)
    ensures PaymentRoute.HandlerFor(Wallet.TopUpTxRef(hex)) == Some(TopUpHandler)
    ensures Payment.PaymentKey(TopUpHandler, Wallet.TopUpTxRef(hex)) == PendingKey("topup", Wallet.TopUpTxRef(hex))
  {
    var r := Wallet.TopUpTxRef(hex);
    assert StartsWith(r, PaymentRoute.PrefixOf(TopUpHandler));
    PaymentRoute.HandlerForMatchesPrefix(r, TopUpHandler);
  }

  /** The references of wallet payments (`PAY-`) and of withdrawal transfers (`TRF-`) carry no
      handler prefix, so a webhook quoting one is answered as an unknown transaction type. */
  lemma WalletRefsHaveNoHandler(hex: string)
    ensures PaymentRoute.HandlerFor(Wallet.PayTxRef(hex)).None?
    ensures PaymentRoute.HandlerFor(Wallet.TransferRef(hex)).None?
  {
    var p := Wallet.PayTxRef(hex);
    var t := Wallet.TransferRef(hex);
    assert p[0] == 'P' && p[1] == 'A';
    assert t[0] == 'T' && t[1] == 'R';
    forall g: Handler
      ensures !StartsWith(p, PaymentRoute.PrefixOf(g)) && !StartsWith(t, PaymentRoute.PrefixOf(g))
    {
      match g
      case DeliveryHandler =>
      case FoodHandler =>
      case TopUpHandler =>
        assert PaymentRoute.PrefixOf(g)[1] == 'O';
      case LaundryHandler =>
      case ProductHandler =>
        assert PaymentRoute.PrefixOf(g)[1] == 'R';
    }
    PaymentRoute.HandlerForMatchesPrefix(p, DeliveryHandler);
    PaymentRoute.HandlerForMatchesPrefix(t, DeliveryHandler);
  }

  /** Distinct handlers read distinct keys, so no intent is consumed by the wrong vertical. */
  lemma HandlerKeysDistinct(g: Handler, h: Handler, txRef: string)
    requires g != h
    ensures Payment.PaymentKey(g, txRef) != Payment.PaymentKey(h, txRef)
  {
    // the verticals already differ in their first letter
    assert Payment.PaymentKey(g, txRef)[8] == Payment.VerticalOf(g)[0];
    assert Payment.PaymentKey(h, txRef)[8] == Payment.VerticalOf(h)[0];
  }

  /** As written, the record the delivery initiator saves lacks `delivery_fee`, the first key the
      delivery handler reads, so every verified delivery payment whose intent is found fails
      with no write and keeps its intent. A record holding the keys the handler reads gives the
      intended run the model uses (see PaymentProps.DeliveryPaymentEffects). */
  lemma DeliveryPaymentFailsAsWritten(t: Tables, p: map<string, Intent>, txRef: string, paid: real, flwRef: string)
    requires Payment.PaymentKey(DeliveryHandler, txRef) in p
    ensures Payment.DeliveryProcessAsWritten(t, p, txRef, paid, flwRef, true, Delivery.PendingRecordKeysAsWritten) ==
      Payment.PayStep(t, p, Payment.KeyMissing("delivery_fee"))
    ensures Payment.DeliveryProcessAsWritten(t, p, txRef, paid, flwRef, true, Delivery.PendingRecordKeysAsWritten + {"delivery_fee", "amount_due_dispatch"}) ==
      Payment.ProcessSpec(DeliveryHandler, t, p, txRef, paid, flwRef, true)
  {
    assert "delivery_fee" !in Delivery.PendingRecordKeysAsWritten;
    assert Payment.DeliveryRecordReads[0] == "delivery_fee";
  }

  /** As written, initiating a top-up never saves its intent, so the top-up handler finds none
      for the reference it generated and credits nothing, however the payment is reported. Had
      the intent been saved, as `Wallet.InitiateWalletTopUp` does, a verified payment of the
      amount to an existing wallet would be processed (see PaymentProps.TopUpPaymentEffects). */
  lemma TopUpPaymentFindsNoIntentAsWritten(t: Tables, p: map<string, Intent>, user: UserId, amount: real, hex: string,
                                           paid: real, flwRef: string, verified: bool)
    requires Payment.PaymentKey(TopUpHandler, Wallet.TopUpTxRef(hex)) !in p
    ensures var p' := Wallet.InitiateWalletTopUpAsWritten(t.wallets, p, user, amount).1;
      var s := Payment.ProcessSpec(TopUpHandler, t, p', Wallet.TopUpTxRef(hex), paid, flwRef, verified);
      s.tables == t && s.pending == p && !s.outcome.Processed?
    ensures var key := PendingKey("topup", Wallet.TopUpTxRef(hex));
      user in t.wallets && Money.AmountsMatch(paid, amount) && verified ==>
      Payment.ProcessSpec(TopUpHandler, t, p[key := TopUpIntent(user, amount)], Wallet.TopUpTxRef(hex), paid, flwRef, verified).outcome.Processed?
  {
    TopUpRefReachesItsHandler(hex);
  }
}
