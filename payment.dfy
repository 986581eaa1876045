/** The five `process_successful_*_payment` handlers the queue runs once the gateway reports
    a payment. Each verifies the payment with the gateway (a parameter here), resolves its
    pending intent from Redis, compares the quantized amounts, and only then creates the order,
    moves the wallet amounts, appends the ledger rows and drops the intent. The food and product
    handlers first look for a transaction that already carries the tx_ref.

    The spec function `ProcessSpec` states the whole effect of a handler on the database and
    the cache; each method is proved to have exactly that effect, and the properties of the
    pipeline are lemmas about `ProcessSpec`. */
module Payment {
  import opened Wrappers
  import opened Store
  import opened Money
  import opened Refs
  import opened Commission

  datatype PaymentOutcome =
    | NotVerified
    | PendingNotFound
    | IntentMismatch
    | AlreadyProcessed
    | AmountMismatch
    | WalletMissing
    | Processed(orderId: Option<RowId>)
    | KeyMissing(key: string)

  /** The database, the pending intents and what the handler reported. */
  datatype PayStep = PayStep(tables: Tables, pending: map<string, Intent>, outcome: PaymentOutcome)

  /** The vertical segment of a handler's Redis key. */
  function VerticalOf(h: Handler): string {
    match h
    case DeliveryHandler => "delivery"
    case FoodHandler => "food"
    case TopUpHandler => "topup"
    case ProductHandler => "product"
    case LaundryHandler => "laundry"
  }

  function PaymentKey(h: Handler, txRef: string): string {
    PendingKey(VerticalOf(h), txRef)
  }

  // ---------------------------------------------------------------------------
  // Rows each handler writes
  // ---------------------------------------------------------------------------

  function DeliveryOrderRow(txRef: string, sender: UserId, expected: real, amountDueDispatch: Option<real>): OrderRow {
    OrderRow("delivery_orders", sender, None, expected, amountDueDispatch, "PAID_NEEDS_RIDER", "PAID", Some("HELD"), txRef, "DELIVERY")
  }

  function DeliveryHoldRow(txRef: string, sender: UserId, id: RowId, expected: real, flwRef: string): Transaction {
    Transaction(txRef, expected, sender, None, Some(id), Some(sender), EscrowHold, Some("SUCCESS"), None,
                Some("FLUTTERWAVE"), Some("DELIVERY"), map["flw_ref" := flwRef])
  }

  /** The share of an order the vertical's vendor is owed: grand total times (1 - rate). */
  function VendorShare(orderType: string, charges: Option<ChargesRow>, total: real): real
    requires KnownOrderType(orderType)
  {
    total * (1.0 - GetCommissionRate(orderType, charges).value)
  }

  function FoodOrderRow(txRef: string, i: Intent, charges: Option<ChargesRow>): OrderRow
    requires i.FoodIntent?
  {
    OrderRow("food_orders", i.customer, Some(i.vendor), i.grandTotal, Some(VendorShare("FOOD", charges, i.grandTotal)),
             "PENDING", "SUCCESS", None, txRef, "FOOD")
  }

  function ItemRows(id: RowId, cart: seq<CartItem>): (r: seq<OrderItem>)
    ensures |r| == |cart|
    ensures forall j :: 0 <= j < |cart| ==> r[j] == OrderItem(id, cart[j].itemId, cart[j].quantity)
  {
    seq(|cart|, j requires 0 <= j < |cart| => OrderItem(id, cart[j].itemId, cart[j].quantity))
  }

  function FoodHoldRow(txRef: string, i: Intent, id: RowId, flwRef: string, debit: bool): Transaction
    requires i.FoodIntent?
  {
    Transaction(txRef, i.grandTotal, i.customer, Some(i.vendor), Some(id), Some(if debit then i.customer else i.vendor),
                EscrowHold, Some("SUCCESS"), None, Some("FLUTTERWAVE"), Some("FOOD"),
                if debit then map["flw_ref" := flwRef, "label" := "DEBIT", "order_type" := "FOOD"]
                else map["flw_ref" := flwRef, "label" := "CREDIT", "from" := i.name, "order_type" := "FOOD"])
  }

  function DepositRow(txRef: string, user: UserId, paid: real, flwRef: string): Transaction {
    Transaction(txRef, paid, user, Some(user), None, Some(user), Deposit, None, None,
                Some("FLUTTERWAVE"), Some("DEPOSIT"), map["flw_ref" := flwRef, "label" := "CREDIT"])
  }

  function ProductOrderRow(txRef: string, i: Intent): OrderRow
    requires i.ProductIntent?
  {
    OrderRow("product_orders", i.customer, Some(i.vendor), i.grandTotal, Some(i.subtotal), "PENDING", "PAID", Some("HELD"), txRef, "PRODUCT")
  }

  function LaundryOrderRow(txRef: string, i: Intent, charges: Option<ChargesRow>): OrderRow
    requires i.LaundryIntent?
  {
    OrderRow("laundry_orders", i.customer, Some(i.vendor), i.grandTotal, Some(VendorShare("LAUNDRY", charges, i.grandTotal)),
             "PENDING", "PAID", Some("HELD"), txRef, "LAUNDRY")
  }

  /** The single ESCROW_HOLD row of a product or laundry order. */
  function VendorOrderHoldRow(txRef: string, customer: UserId, vendor: UserId, total: real, id: RowId, flwRef: string, orderType: string): Transaction {
    Transaction(txRef, total, customer, Some(vendor), Some(id), Some(customer), EscrowHold, None, None,
                Some("FLUTTERWAVE"), Some(orderType), map["flw_ref" := flwRef, "label" := "DEBIT"])
  }

  // ---------------------------------------------------------------------------
  // Effects on the database
  // ---------------------------------------------------------------------------

  function DeliveryTables(t: Tables, txRef: string, i: Intent, expected: real, flwRef: string): Tables
    requires i.DeliveryIntent?
  {
    var id := t.nextId;
    t.(orders := t.orders[id := DeliveryOrderRow(txRef, i.sender, expected, i.amountDueDispatch)], nextId := id + 1,
       wallets := AddToWallet(t.wallets, i.sender, expected, 0.0),
       transactions := t.transactions + [DeliveryHoldRow(txRef, i.sender, id, expected, flwRef)])
  }

  function FoodTables(t: Tables, txRef: string, i: Intent, flwRef: string): Tables
    requires i.FoodIntent?
  {
    var id := t.nextId;
    t.(orders := t.orders[id := FoodOrderRow(txRef, i, t.charges)], nextId := id + 1,
       items := t.items + ItemRows(id, i.cart),
       wallets := AddToWallet(AddToWallet(t.wallets, i.customer, 0.0, i.grandTotal), i.vendor, 0.0, i.grandTotal),
       transactions := t.transactions + [FoodHoldRow(txRef, i, id, flwRef, true), FoodHoldRow(txRef, i, id, flwRef, false)],
       commissions := t.commissions + [CommissionRecord("FOOD", Some(id), Some(i.customer), Some(i.vendor), None)])
  }

  function TopUpTables(t: Tables, txRef: string, user: UserId, paid: real, flwRef: string): Tables {
    t.(wallets := AddToWallet(t.wallets, user, paid, 0.0), transactions := t.transactions + [DepositRow(txRef, user, paid, flwRef)])
  }

  function ProductTables(t: Tables, txRef: string, i: Intent, flwRef: string): Tables
    requires i.ProductIntent?
  {
    var id := t.nextId;
    t.(orders := t.orders[id := ProductOrderRow(txRef, i)], nextId := id + 1,
       items := t.items + [OrderItem(id, i.productId, i.quantity)],
       wallets := AddToWallet(t.wallets, i.customer, 0.0, i.grandTotal),
       transactions := t.transactions + [VendorOrderHoldRow(txRef, i.customer, i.vendor, i.grandTotal, id, flwRef, "PRODUCT")])
  }

  function LaundryTables(t: Tables, txRef: string, i: Intent, flwRef: string): Tables
    requires i.LaundryIntent?
  {
    var id := t.nextId;
    t.(orders := t.orders[id := LaundryOrderRow(txRef, i, t.charges)], nextId := id + 1,
       wallets := AddToWallet(t.wallets, i.customer, 0.0, i.grandTotal),
       transactions := t.transactions + [VendorOrderHoldRow(txRef, i.customer, i.vendor, i.grandTotal, id, flwRef, "LAUNDRY")],
       commissions := t.commissions + [CommissionRecord("LAUNDRY", Some(id), Some(i.customer), Some(i.vendor), None)])
  }

  // ---------------------------------------------------------------------------
  // The handlers as one specification
  // ---------------------------------------------------------------------------

  /** What handler `h` does once verification passed and the intent under `key` was found. */
  function HandleIntent(h: Handler, t: Tables, p: map<string, Intent>, key: string, i: Intent,
                        txRef: string, paid: real, flwRef: string): (r: PayStep)
    ensures !r.outcome.Processed? ==> r.tables == t
    ensures r.pending == p || r.pending == p - {key}
  {
    var dropped := p - {key};
    match h
    case DeliveryHandler =>
      if !i.DeliveryIntent? then PayStep(t, p, IntentMismatch)
      else
        var expected := Abs(Quantize2(i.fee));
        if Quantize2(paid) != expected then PayStep(t, dropped, AmountMismatch)
        else PayStep(DeliveryTables(t, txRef, i, expected, flwRef), dropped, Processed(Some(t.nextId)))
    case FoodHandler =>
      if !i.FoodIntent? then PayStep(t, p, IntentMismatch)
      else if HasTxRef(t.transactions, txRef) then PayStep(t, dropped, AlreadyProcessed)
      else if !AmountsMatch(paid, i.grandTotal) then PayStep(t, dropped, AmountMismatch)
      else PayStep(FoodTables(t, txRef, i, flwRef), dropped, Processed(Some(t.nextId)))
    case TopUpHandler =>
      if !i.TopUpIntent? then PayStep(t, p, IntentMismatch)
      else if !AmountsMatch(paid, i.amount) then PayStep(t, dropped, AmountMismatch)
      else if i.user !in t.wallets then PayStep(t, dropped, WalletMissing)
      else PayStep(TopUpTables(t, txRef, i.user, paid, flwRef), dropped, Processed(None))
    case ProductHandler =>
      if !i.ProductIntent? then PayStep(t, p, IntentMismatch)
      else if HasTxRef(t.transactions, txRef) then PayStep(t, dropped, AlreadyProcessed)
      else if !AmountsMatch(paid, i.grandTotal) then PayStep(t, dropped, AmountMismatch)
      else PayStep(ProductTables(t, txRef, i, flwRef), dropped, Processed(Some(t.nextId)))
    case LaundryHandler =>
      if !i.LaundryIntent? then PayStep(t, p, IntentMismatch)
      else if !AmountsMatch(paid, i.grandTotal) then PayStep(t, dropped, AmountMismatch)
      else PayStep(LaundryTables(t, txRef, i, flwRef), dropped, Processed(Some(t.nextId)))
  }

  /** The whole effect of running handler `h` for a reported payment; `verified` is whether
      the gateway's verification call reported "success". */
  function ProcessSpec(h: Handler, t: Tables, p: map<string, Intent>, txRef: string, paid: real, flwRef: string,
                       verified: bool): (r: PayStep)
    ensures !r.outcome.Processed? ==> r.tables == t
    ensures r.outcome.Processed? ==> verified && r.pending == p - {PaymentKey(h, txRef)}
    ensures r.pending == p || r.pending == p - {PaymentKey(h, txRef)}
  {
    var key := PaymentKey(h, txRef);
    if !verified then PayStep(t, p, NotVerified)
    else if key !in p then PayStep(t, p, PendingNotFound)
    else HandleIntent(h, t, p, key, p[key], txRef, paid, flwRef)
  }

  // ---------------------------------------------------------------------------
  // The delivery record as the source reads it
  // ---------------------------------------------------------------------------

  /** The keys of the pending delivery record the delivery handler subscripts, in order. */
  const DeliveryRecordReads: seq<string> := ["delivery_fee", "sender_id", "delivery_data", "amount_due_dispatch"]

  /** The first of `wanted` absent from a record with keys `keys`: the KeyError `pending[...]` raises. */
  function FirstMissing(wanted: seq<string>, keys: set<string>): (r: Option<string>)
    ensures r.None? <==> forall j :: 0 <= j < |wanted| ==> wanted[j] in keys
    ensures r.Some? ==> r.value in wanted && r.value !in keys
  {
    if |wanted| == 0 then None
    else if wanted[0] !in keys then Some(wanted[0])
    else FirstMissing(wanted[1..], keys)
  }

  /** The delivery handler as written, for a pending record whose keys are `recordKeys`: a
      missing key raises KeyError before the handler's `try`, so nothing is written, the intent
      stays in the cache and the queue retries the job to the same end. */
  function DeliveryProcessAsWritten(t: Tables, p: map<string, Intent>, txRef: string, paid: real, flwRef: string,
                                    verified: bool, recordKeys: set<string>): PayStep {
    var key := PaymentKey(DeliveryHandler, txRef);
    if !verified then PayStep(t, p, NotVerified)
    else if key !in p then PayStep(t, p, PendingNotFound)
    else match FirstMissing(DeliveryRecordReads, recordKeys)
      case Some(k) => PayStep(t, p, KeyMissing(k))
      case None => ProcessSpec(DeliveryHandler, t, p, txRef, paid, flwRef, verified)
  }

  // ---------------------------------------------------------------------------
  // The handlers
  // ---------------------------------------------------------------------------

  method ProcessSuccessfulDeliveryPayment(db: Database, cache: PendingCache, txRef: string, paid: real, flwRef: string, verified: bool)
    returns (r: PaymentOutcome)
    modifies db, cache
    ensures PayStep(db.Snapshot(), cache.pending, r) ==
      ProcessSpec(DeliveryHandler, old(db.Snapshot()), old(cache.pending), txRef, paid, flwRef, verified)
  {
    if !verified {
      return NotVerified;
    }
    var key := PendingKey("delivery", txRef);
    var found := cache.Get(key);
    if found.None? {
      return PendingNotFound;
    }
    var i := found.value;
    if !i.DeliveryIntent? {
      return IntentMismatch;
    }
    var expected := Abs(Quantize2(i.fee));
    if Quantize2(paid) != expected {
      cache.Delete(key);
      return AmountMismatch;
    }
    var id := db.InsertOrder(DeliveryOrderRow(txRef, i.sender, expected, i.amountDueDispatch));
    db.UpdateUserWallet(i.sender, expected, 0.0);
    db.InsertTransaction(DeliveryHoldRow(txRef, i.sender, id, expected, flwRef));
    cache.Delete(key);
    r := Processed(Some(id));
  }

  /** The food order's line items, inserted one cart entry at a time. */
  method InsertCartItems(db: Database, id: RowId, cart: seq<CartItem>)
    modifies db
    ensures db.Snapshot() == old(db.Snapshot()).(items := old(db.items) + ItemRows(id, cart))
  {
    for k := 0 to |cart|
      invariant db.Snapshot() == old(db.Snapshot()).(items := old(db.items) + ItemRows(id, cart[..k]))
    {
      assert ItemRows(id, cart[..k + 1]) == ItemRows(id, cart[..k]) + [OrderItem(id, cart[k].itemId, cart[k].quantity)];
      db.InsertItem(OrderItem(id, cart[k].itemId, cart[k].quantity));
    }
    assert cart[..|cart|] == cart;
  }

  /** The writes of a matched food payment, in the order the handler makes them. */
  method CreateFoodOrder(db: Database, txRef: string, i: Intent, flwRef: string) returns (id: RowId)
    requires i.FoodIntent?
    modifies db
    ensures id == old(db.nextId)
    ensures db.Snapshot() == FoodTables(old(db.Snapshot()), txRef, i, flwRef)
  {
    id := db.InsertOrder(FoodOrderRow(txRef, i, db.charges));
    InsertCartItems(db, id, i.cart);
    db.UpdateUserWallet(i.customer, 0.0, i.grandTotal);
    db.UpdateUserWallet(i.vendor, 0.0, i.grandTotal);
    db.InsertTransaction(FoodHoldRow(txRef, i, id, flwRef, true));
    db.InsertTransaction(FoodHoldRow(txRef, i, id, flwRef, false));
    db.InsertCommission(CommissionRecord("FOOD", Some(id), Some(i.customer), Some(i.vendor), None));
  }

  method ProcessSuccessfulFoodPayment(db: Database, cache: PendingCache, txRef: string, paid: real, flwRef: string, verified: bool)
    returns (r: PaymentOutcome)
    modifies db, cache
    ensures PayStep(db.Snapshot(), cache.pending, r) ==
      ProcessSpec(FoodHandler, old(db.Snapshot()), old(cache.pending), txRef, paid, flwRef, verified)
  {
    if !verified {
      return NotVerified;
    }
    var key := PendingKey("food", txRef);
    var found := cache.Get(key);
    if found.None? {
      return PendingNotFound;
    }
    var i := found.value;
    if !i.FoodIntent? {
      return IntentMismatch;
    }
    var existing := db.TransactionExists(txRef);
    if existing {
      cache.Delete(key);
      return AlreadyProcessed;
    }
    if !AmountsMatch(paid, i.grandTotal) {
      cache.Delete(key);
      return AmountMismatch;
    }
    var id := CreateFoodOrder(db, txRef, i, flwRef);
    cache.Delete(key);
    r := Processed(Some(id));
  }

  method ProcessSuccessfulTopUpPayment(db: Database, cache: PendingCache, txRef: string, paid: real, flwRef: string, verified: bool)
    returns (r: PaymentOutcome)
    modifies db, cache
    ensures PayStep(db.Snapshot(), cache.pending, r) ==
      ProcessSpec(TopUpHandler, old(db.Snapshot()), old(cache.pending), txRef, paid, flwRef, verified)
  {
    if !verified {
      return NotVerified;
    }
    var key := PendingKey("topup", txRef);
    var found := cache.Get(key);
    if found.None? {
      return PendingNotFound;
    }
    var i := found.value;
    if !i.TopUpIntent? {
      return IntentMismatch;
    }
    if !AmountsMatch(paid, i.amount) {
      cache.Delete(key);
      return AmountMismatch;
    }
    if i.user !in db.wallets {
      cache.Delete(key);
      return WalletMissing;
    }
    db.UpdateUserWallet(i.user, paid, 0.0);
    db.InsertTransaction(DepositRow(txRef, i.user, paid, flwRef));
    cache.Delete(key);
    r := Processed(None);
  }

  method ProcessSuccessfulProductPayment(db: Database, cache: PendingCache, txRef: string, paid: real, flwRef: string, verified: bool)
    returns (r: PaymentOutcome)
    modifies db, cache
    ensures PayStep(db.Snapshot(), cache.pending, r) ==
      ProcessSpec(ProductHandler, old(db.Snapshot()), old(cache.pending), txRef, paid, flwRef, verified)
  {
    if !verified {
      return NotVerified;
    }
    var key := PendingKey("product", txRef);
    var found := cache.Get(key);
    if found.None? {
      return PendingNotFound;
    }
    var i := found.value;
    if !i.ProductIntent? {
      return IntentMismatch;
    }
    var existing := db.TransactionExists(txRef);
    if existing {
      cache.Delete(key);
      return AlreadyProcessed;
    }
    if !AmountsMatch(paid, i.grandTotal) {
      cache.Delete(key);
      return AmountMismatch;
    }
    var id := db.InsertOrder(ProductOrderRow(txRef, i));
    db.InsertItem(OrderItem(id, i.productId, i.quantity));
    db.UpdateUserWallet(i.customer, 0.0, i.grandTotal);
    db.InsertTransaction(VendorOrderHoldRow(txRef, i.customer, i.vendor, i.grandTotal, id, flwRef, "PRODUCT"));
    cache.Delete(key);
    r := Processed(Some(id));
  }

  method ProcessSuccessfulLaundryPayment(db: Database, cache: PendingCache, txRef: string, paid: real, flwRef: string, verified: bool)
    returns (r: PaymentOutcome)
    modifies db, cache
    ensures PayStep(db.Snapshot(), cache.pending, r) ==
      ProcessSpec(LaundryHandler, old(db.Snapshot()), old(cache.pending), txRef, paid, flwRef, verified)
  {
    if !verified {
      return NotVerified;
    }
    var key := PendingKey("laundry", txRef);
    var found := cache.Get(key);
    if found.None? {
      return PendingNotFound;
    }
    var i := found.value;
    if !i.LaundryIntent? {
      return IntentMismatch;
    }
    if !AmountsMatch(paid, i.grandTotal) {
      cache.Delete(key);
      return AmountMismatch;
    }
    var id := db.InsertOrder(LaundryOrderRow(txRef, i, db.charges));
    db.UpdateUserWallet(i.customer, 0.0, i.grandTotal);
    db.InsertTransaction(VendorOrderHoldRow(txRef, i.customer, i.vendor, i.grandTotal, id, flwRef, "LAUNDRY"));
    db.InsertCommission(CommissionRecord("LAUNDRY", Some(id), Some(i.customer), Some(i.vendor), None));
    cache.Delete(key);
    r := Processed(Some(id));
  }

  /** The worker's call of the handler a job names. */
  method RunHandler(h: Handler, db: Database, cache: PendingCache, txRef: string, paid: real, flwRef: string, verified: bool)
    returns (r: PaymentOutcome)
    modifies db, cache
    ensures PayStep(db.Snapshot(), cache.pending, r) == ProcessSpec(h, old(db.Snapshot()), old(cache.pending), txRef, paid, flwRef, verified)
  {
    match h
    case DeliveryHandler => r := ProcessSuccessfulDeliveryPayment(db, cache, txRef, paid, flwRef, verified);
    case FoodHandler => r := ProcessSuccessfulFoodPayment(db, cache, txRef, paid, flwRef, verified);
    case TopUpHandler => r := ProcessSuccessfulTopUpPayment(db, cache, txRef, paid, flwRef, verified);
    case ProductHandler => r := ProcessSuccessfulProductPayment(db, cache, txRef, paid, flwRef, verified);
    case LaundryHandler => r := ProcessSuccessfulLaundryPayment(db, cache, txRef, paid, flwRef, verified);
  }
}
