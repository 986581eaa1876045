/** Properties of the payment handlers, stated about `Payment.ProcessSpec`, the function each
    handler method is proved to implement. */
module PaymentProps {
  import opened Wrappers
  import opened Store
  import opened Money
  import opened Commission
  import opened Payment

  /** The intent kind handler `h` reads from its key. */
  predicate IntentFits(h: Handler, i: Intent) {
    match h
    case DeliveryHandler => i.DeliveryIntent?
    case FoodHandler => i.FoodIntent?
    case TopUpHandler => i.TopUpIntent?
    case ProductHandler => i.ProductIntent?
    case LaundryHandler => i.LaundryIntent?
  }

  /** The amount comparison of handler `h`: both sides quantized to two decimals (the delivery
      handler takes the absolute value of the quantized fee). */
  predicate PaidMatches(h: Handler, i: Intent, paid: real)
    requires IntentFits(h, i)
  {
    match h
    case DeliveryHandler => Quantize2(paid) == Abs(Quantize2(i.fee))
    case FoodHandler => AmountsMatch(paid, i.grandTotal)
    case TopUpHandler => AmountsMatch(paid, i.amount)
    case ProductHandler => AmountsMatch(paid, i.grandTotal)
    case LaundryHandler => AmountsMatch(paid, i.grandTotal)
  }

  /** The handlers that look the tx_ref up in `transactions` before comparing amounts. */
  predicate ChecksTxRef(h: Handler) { h == FoodHandler || h == ProductHandler }

  /** An unverified payment, or one with no pending intent, writes nothing and keeps the intents. */
  lemma NoWritesWithoutVerifiedIntent(h: Handler, t: Tables, p: map<string, Intent>, txRef: string, paid: real, flwRef: string, verified: bool)
    requires !verified || PaymentKey(h, txRef) !in p
    ensures ProcessSpec(h, t, p, txRef, paid, flwRef, verified) ==
      PayStep(t, p, if !verified then NotVerified else PendingNotFound)
  {
  }

  /** An amount that differs after quantization deletes the pending intent and writes nothing else. */
  lemma MismatchOnlyDropsIntent(h: Handler, t: Tables, p: map<string, Intent>, txRef: string, paid: real, flwRef: string)
    requires PaymentKey(h, txRef) in p && IntentFits(h, p[PaymentKey(h, txRef)])
    requires ChecksTxRef(h) ==> !HasTxRef(t.transactions, txRef)
    requires !PaidMatches(h, p[PaymentKey(h, txRef)], paid)
    ensures ProcessSpec(h, t, p, txRef, paid, flwRef, true) == PayStep(t, p - {PaymentKey(h, txRef)}, AmountMismatch)
  {
  }

  /** In the food and product handlers a tx_ref already in the ledger only deletes the intent,
      whether or not the amounts match: the lookup runs before the amount check. */
  lemma ExistingTxRefOnlyDropsIntent(h: Handler, t: Tables, p: map<string, Intent>, txRef: string, paid: real, flwRef: string)
    requires ChecksTxRef(h)
    requires PaymentKey(h, txRef) in p && IntentFits(h, p[PaymentKey(h, txRef)])
    requires HasTxRef(t.transactions, txRef)
    ensures ProcessSpec(h, t, p, txRef, paid, flwRef, true) == PayStep(t, p - {PaymentKey(h, txRef)}, AlreadyProcessed)
  {
  }

  /** The delivery, top-up and laundry handlers have no such lookup: a matching payment whose
      tx_ref is already in the ledger is booked again. */
  lemma OtherHandlersBookAgain(h: Handler, t: Tables, p: map<string, Intent>, txRef: string, paid: real, flwRef: string)
    requires !ChecksTxRef(h)
    requires PaymentKey(h, txRef) in p && IntentFits(h, p[PaymentKey(h, txRef)])
    requires PaidMatches(h, p[PaymentKey(h, txRef)], paid)
    requires h == TopUpHandler ==> p[PaymentKey(h, txRef)].user in t.wallets
    requires HasTxRef(t.transactions, txRef)
    ensures var s := ProcessSpec(h, t, p, txRef, paid, flwRef, true);
      s.outcome.Processed? && |s.tables.transactions| == |t.transactions| + 1 &&
      s.tables.transactions[|t.transactions|].txRef == txRef
  {
  }

  /** Running a handler a second time with the same arguments changes nothing: every path that
      writes also deletes the intent, and every path that keeps the intent writes nothing. */
  lemma ReplayIsNoOp(h: Handler, t: Tables, p: map<string, Intent>, txRef: string, paid: real, flwRef: string, verified: bool)
    ensures var s1 := ProcessSpec(h, t, p, txRef, paid, flwRef, verified);
      var s2 := ProcessSpec(h, s1.tables, s1.pending, txRef, paid, flwRef, verified);
      s2.tables == s1.tables && s2.pending == s1.pending
  {
    var key := PaymentKey(h, txRef);
    var s1 := ProcessSpec(h, t, p, txRef, paid, flwRef, verified);
    if verified && key in p {
      if s1.pending == p {
        assert s1.tables == t;
      } else {
        assert s1.pending == p - {key};
        assert key !in s1.pending;
      }
    }
  }

  /** A handler creates at most one order, always under the next free id, and only when it
      reports the payment processed. */
  lemma AtMostOneOrder(h: Handler, t: Tables, p: map<string, Intent>, txRef: string, paid: real, flwRef: string, verified: bool)
    ensures var s := ProcessSpec(h, t, p, txRef, paid, flwRef, verified);
      (s.tables.orders == t.orders && s.tables.nextId == t.nextId && (s.outcome.Processed? ==> s.outcome.orderId.None?)) ||
      (s.outcome == Processed(Some(t.nextId)) && s.tables.nextId == t.nextId + 1 &&
       t.nextId in s.tables.orders && s.tables.orders == t.orders[t.nextId := s.tables.orders[t.nextId]])
  {
    var key := PaymentKey(h, txRef);
    if verified && key in p {
      assert ProcessSpec(h, t, p, txRef, paid, flwRef, verified) == HandleIntent(h, t, p, key, p[key], txRef, paid, flwRef);
      HandlerAddsAtMostOneOrder(h, t, p, key, p[key], txRef, paid, flwRef);
    }
  }

  /** One handler run on a found intent: no new order, or exactly one under the next free id. */
  lemma HandlerAddsAtMostOneOrder(h: Handler, t: Tables, p: map<string, Intent>, key: string, i: Intent,
                                  txRef: string, paid: real, flwRef: string)
    ensures var s := HandleIntent(h, t, p, key, i, txRef, paid, flwRef);
      (s.tables.orders == t.orders && s.tables.nextId == t.nextId && (s.outcome.Processed? ==> s.outcome.orderId.None?)) ||
      (s.outcome == Processed(Some(t.nextId)) && s.tables.nextId == t.nextId + 1 &&
       t.nextId in s.tables.orders && s.tables.orders == t.orders[t.nextId := s.tables.orders[t.nextId]])
  {
    var dropped := p - {key};
    var s := HandleIntent(h, t, p, key, i, txRef, paid, flwRef);
    match h
    case DeliveryHandler =>
      if i.DeliveryIntent? && Quantize2(paid) == Abs(Quantize2(i.fee)) {
        var t' := DeliveryTables(t, txRef, i, Abs(Quantize2(i.fee)), flwRef);
        assert s == PayStep(t', dropped, Processed(Some(t.nextId)));
        assert t'.orders == t.orders[t.nextId := t'.orders[t.nextId]];
      }
    case FoodHandler =>
      if i.FoodIntent? && !HasTxRef(t.transactions, txRef) && AmountsMatch(paid, i.grandTotal) {
        var t' := FoodTables(t, txRef, i, flwRef);
        assert s == PayStep(t', dropped, Processed(Some(t.nextId)));
        assert t'.orders == t.orders[t.nextId := t'.orders[t.nextId]];
      }
    case TopUpHandler =>
      if i.TopUpIntent? && AmountsMatch(paid, i.amount) && i.user in t.wallets {
        var t' := TopUpTables(t, txRef, i.user, paid, flwRef);
        assert s == PayStep(t', dropped, Processed(None));
        assert t'.orders == t.orders && t'.nextId == t.nextId;
      }
    case ProductHandler =>
      if i.ProductIntent? && !HasTxRef(t.transactions, txRef) && AmountsMatch(paid, i.grandTotal) {
        var t' := ProductTables(t, txRef, i, flwRef);
        assert s == PayStep(t', dropped, Processed(Some(t.nextId)));
        assert t'.orders == t.orders[t.nextId := t'.orders[t.nextId]];
      }
    case LaundryHandler =>
      if i.LaundryIntent? && AmountsMatch(paid, i.grandTotal) {
        var t' := LaundryTables(t, txRef, i, flwRef);
        assert s == PayStep(t', dropped, Processed(Some(t.nextId)));
        assert t'.orders == t.orders[t.nextId := t'.orders[t.nextId]];
      }
  }

  /** A matched food payment: the grand total goes into both the customer's and the vendor's
      escrow, two ESCROW_HOLD rows with the tx_ref are appended (DEBIT on the customer's wallet,
      then CREDIT on the vendor's), one item row per cart entry, one PENDING order, and the
      intent is gone. */
  lemma FoodPaymentEffects(t: Tables, p: map<string, Intent>, txRef: string, paid: real, flwRef: string)
    requires PaymentKey(FoodHandler, txRef) in p && p[PaymentKey(FoodHandler, txRef)].FoodIntent?
    requires !HasTxRef(t.transactions, txRef)
    requires var i := p[PaymentKey(FoodHandler, txRef)];
      AmountsMatch(paid, i.grandTotal) && i.customer != i.vendor && i.customer in t.wallets && i.vendor in t.wallets
    ensures var i := p[PaymentKey(FoodHandler, txRef)];
      var s := ProcessSpec(FoodHandler, t, p, txRef, paid, flwRef, true);
      var ws, ws' := t.wallets, s.tables.wallets;
      var id := t.nextId;
      ws'[i.customer] == Wallet(ws[i.customer].balance, ws[i.customer].escrow + i.grandTotal) &&
      ws'[i.vendor] == Wallet(ws[i.vendor].balance, ws[i.vendor].escrow + i.grandTotal) &&
      (forall u :: u in ws && u != i.customer && u != i.vendor ==> ws'[u] == ws[u]) &&
      |s.tables.transactions| == |t.transactions| + 2 &&
      s.tables.transactions[..|t.transactions|] == t.transactions &&
      (forall k :: |t.transactions| <= k < |t.transactions| + 2 ==>
         s.tables.transactions[k].txType == EscrowHold && s.tables.transactions[k].txRef == txRef &&
         s.tables.transactions[k].orderId == Some(id) && s.tables.transactions[k].amount == i.grandTotal) &&
      s.tables.transactions[|t.transactions|].details["label"] == "DEBIT" &&
      s.tables.transactions[|t.transactions|].wallet == Some(i.customer) &&
      s.tables.transactions[|t.transactions| + 1].details["label"] == "CREDIT" &&
      s.tables.transactions[|t.transactions| + 1].wallet == Some(i.vendor) &&
      |s.tables.items| == |t.items| + |i.cart| &&
      (forall j :: 0 <= j < |i.cart| ==> s.tables.items[|t.items| + j] == OrderItem(id, i.cart[j].itemId, i.cart[j].quantity)) &&
      s.tables.orders[id].status == "PENDING" && s.tables.orders[id].grandTotal == i.grandTotal &&
      PaymentKey(FoodHandler, txRef) !in s.pending && s.outcome == Processed(Some(id))
  {
    var key := PaymentKey(FoodHandler, txRef);
    var i := p[key];
    assert ProcessSpec(FoodHandler, t, p, txRef, paid, flwRef, true) ==
      PayStep(FoodTables(t, txRef, i, flwRef), p - {key}, Processed(Some(t.nextId)));
  }

  /** A matched product or laundry payment puts the grand total into the customer's escrow only
      and appends exactly one ESCROW_HOLD row for the new order. */
  lemma VendorOrderPaymentEffects(h: Handler, t: Tables, p: map<string, Intent>, txRef: string, paid: real, flwRef: string)
    requires h == ProductHandler || h == LaundryHandler
    requires PaymentKey(h, txRef) in p && IntentFits(h, p[PaymentKey(h, txRef)])
    requires ChecksTxRef(h) ==> !HasTxRef(t.transactions, txRef)
    requires PaidMatches(h, p[PaymentKey(h, txRef)], paid)
    requires p[PaymentKey(h, txRef)].customer in t.wallets
    ensures var i := p[PaymentKey(h, txRef)];
      var s := ProcessSpec(h, t, p, txRef, paid, flwRef, true);
      var ws, ws' := t.wallets, s.tables.wallets;
      ws'[i.customer] == Wallet(ws[i.customer].balance, ws[i.customer].escrow + i.grandTotal) &&
      (forall u :: u in ws && u != i.customer ==> ws'[u] == ws[u]) &&
      |s.tables.transactions| == |t.transactions| + 1 &&
      s.tables.transactions[..|t.transactions|] == t.transactions &&
      s.tables.transactions[|t.transactions|].txType == EscrowHold &&
      s.tables.transactions[|t.transactions|].amount == i.grandTotal &&
      s.tables.transactions[|t.transactions|].orderId == Some(t.nextId) &&
      s.tables.orders == t.orders[t.nextId := s.tables.orders[t.nextId]] &&
      s.tables.orders[t.nextId].status == "PENDING" &&
      s.tables.orders[t.nextId].txRef == txRef &&
      PaymentKey(h, txRef) !in s.pending
  {
  }

  /** The laundry order written by a matched payment records `VendorShare` of the grand total. */
  lemma LaundryOrderOwesShare(t: Tables, p: map<string, Intent>, txRef: string, paid: real, flwRef: string)
    requires PaymentKey(LaundryHandler, txRef) in p && p[PaymentKey(LaundryHandler, txRef)].LaundryIntent?
    requires AmountsMatch(paid, p[PaymentKey(LaundryHandler, txRef)].grandTotal)
    ensures var s := ProcessSpec(LaundryHandler, t, p, txRef, paid, flwRef, true);
      t.nextId in s.tables.orders &&
      s.tables.orders[t.nextId].amountDue == Some(VendorShare("LAUNDRY", t.charges, p[PaymentKey(LaundryHandler, txRef)].grandTotal))
  {
    var key := PaymentKey(LaundryHandler, txRef);
    var i := p[key];
    assert ProcessSpec(LaundryHandler, t, p, txRef, paid, flwRef, true) ==
      PayStep(LaundryTables(t, txRef, i, flwRef), p - {key}, Processed(Some(t.nextId)));
  }

  /** The laundry vendor is owed total * (1 - rate); with the platform's part, that is the
      grand total. With no charges row the rate is the 0.8 fallback and the vendor is owed a
      fifth; a rate of 0.85, the doc comment's example of a vendor share, leaves the vendor 15%. */
  lemma LaundryShareSplitsTotal(charges: Option<ChargesRow>, total: real)
    ensures var rate := GetCommissionRate("LAUNDRY", charges).value;
      VendorShare("LAUNDRY", charges, total) == total * (1.0 - rate) &&
      VendorShare("LAUNDRY", charges, total) + total * rate == total &&
      (charges.None? ==> VendorShare("LAUNDRY", charges, total) == total * 0.2) &&
      (charges.Some? && charges.value.laundryCommissionPercentage == 0.85 ==> VendorShare("LAUNDRY", charges, total) == total * 0.15)
  {
    LaundryRateLookup(charges);
    var rate := GetCommissionRate("LAUNDRY", charges).value;
    if charges.None? {
      assert rate == 0.8;
      assert total * (1.0 - rate) == total * 0.2;
    } else if charges.value.laundryCommissionPercentage == 0.85 {
      assert rate == 0.85;
      assert total * (1.0 - rate) == total * 0.15;
    }
  }

  /** The laundry lookup reads the laundry column or falls back to 0.8. */
  lemma LaundryRateLookup(charges: Option<ChargesRow>)
    ensures charges.None? ==> GetCommissionRate("LAUNDRY", charges) == Success(0.8)
    ensures charges.Some? ==> GetCommissionRate("LAUNDRY", charges) == Success(charges.value.laundryCommissionPercentage)
  {
    if charges.Some? {
      RateReadsOwnColumn(charges.value);
    }
  }

  /** A matched delivery payment adds the quantized fee to the sender's spendable balance, not
      to escrow, appends one ESCROW_HOLD row of that amount, and creates the order in
      PAID_NEEDS_RIDER; no other wallet or existing order changes and the intent is gone. */
  lemma DeliveryPaymentEffects(t: Tables, p: map<string, Intent>, txRef: string, paid: real, flwRef: string)
    requires PaymentKey(DeliveryHandler, txRef) in p && p[PaymentKey(DeliveryHandler, txRef)].DeliveryIntent?
    requires var i := p[PaymentKey(DeliveryHandler, txRef)]; Quantize2(paid) == Abs(Quantize2(i.fee)) && i.sender in t.wallets
    ensures var i := p[PaymentKey(DeliveryHandler, txRef)];
      var fee := Abs(Quantize2(i.fee));
      var s := ProcessSpec(DeliveryHandler, t, p, txRef, paid, flwRef, true);
      s.tables.wallets[i.sender] == Wallet(t.wallets[i.sender].balance + fee, t.wallets[i.sender].escrow) &&
      (forall u :: u in t.wallets && u != i.sender ==> s.tables.wallets[u] == t.wallets[u]) &&
      s.tables.transactions == t.transactions + [s.tables.transactions[|t.transactions|]] &&
      s.tables.transactions[|t.transactions|].txType == EscrowHold &&
      s.tables.transactions[|t.transactions|].amount == fee &&
      s.tables.orders[t.nextId].status == "PAID_NEEDS_RIDER" &&
      s.tables.orders[t.nextId].grandTotal == fee &&
      s.tables.orders == t.orders[t.nextId := s.tables.orders[t.nextId]] &&
      PaymentKey(DeliveryHandler, txRef) !in s.pending
  {
  }

  /** A matched top-up adds the paid amount to the balance and appends one DEPOSIT row whose
      from, to and wallet are all the user; the old ledger rows, the other wallets and the orders
      are kept and the intent is gone. */
  lemma TopUpPaymentEffects(t: Tables, p: map<string, Intent>, txRef: string, paid: real, flwRef: string)
    requires PaymentKey(TopUpHandler, txRef) in p && p[PaymentKey(TopUpHandler, txRef)].TopUpIntent?
    requires var i := p[PaymentKey(TopUpHandler, txRef)]; AmountsMatch(paid, i.amount) && i.user in t.wallets
    ensures var u := p[PaymentKey(TopUpHandler, txRef)].user;
      var s := ProcessSpec(TopUpHandler, t, p, txRef, paid, flwRef, true);
      s.tables.wallets[u] == Wallet(t.wallets[u].balance + paid, t.wallets[u].escrow) &&
      (forall v :: v in t.wallets && v != u ==> s.tables.wallets[v] == t.wallets[v]) &&
      |s.tables.transactions| == |t.transactions| + 1 &&
      s.tables.transactions[..|t.transactions|] == t.transactions &&
      PaymentKey(TopUpHandler, txRef) !in s.pending &&
      var d := s.tables.transactions[|t.transactions|];
      d.txType == Deposit && d.amount == paid && d.from == u && d.to == Some(u) && d.wallet == Some(u) &&
      s.tables.orders == t.orders
  {
  }

  /** A top-up of 2000 on a balance of 1000 leaves 3000. */
  lemma TopUpExample(t: Tables, p: map<string, Intent>, txRef: string, flwRef: string, u: UserId)
    requires PaymentKey(TopUpHandler, txRef) in p && p[PaymentKey(TopUpHandler, txRef)] == TopUpIntent(u, 2000.0)
    requires u in t.wallets && t.wallets[u].balance == 1000.0
    ensures ProcessSpec(TopUpHandler, t, p, txRef, 2000.0, flwRef, true).tables.wallets[u].balance == 3000.0
  {
    TopUpPaymentEffects(t, p, txRef, 2000.0, flwRef);
  }
}
