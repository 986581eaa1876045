/** `update_order_status`: the status update shared by the food, product and laundry order
    tables. Authorization and the terminal-state guard come first; then COMPLETED releases the
    held escrow to the vendor, CANCELLED refunds the customer when the escrow is still held,
    and every other status only writes the status column.

    The source reads `transaction_type` off the transaction list and off the order row; both
    are read here as "the order has an ESCROW_HOLD transaction". The status-only branches write
    to the order's own table (see README, Findings, for the table name the source hard-codes). */
module Order {
  import opened Wrappers
  import opened Store

  datatype OrderStatus = Pending | Preparing | Ready | Completed | Cancelled | InTransit | Delivered
  {
    function Name(): string {
      match this
      case Pending => "PENDING"
      case Preparing => "PREPARING"
      case Ready => "READY"
      case Completed => "COMPLETED"
      case Cancelled => "CANCELLED"
      case InTransit => "IN_TRANSIT"
      case Delivered => "DELIVERED"
    }
  }

  datatype OrderError =
    | OrderNotFound
    | OnlyVendor(target: OrderStatus)
    | OnlyCustomer
    | OnlyParties
    | TerminalState(current: string)
    | EscrowNotHeld
    | AmountsMissing
    | AttributeLookupFailed(attribute: string)

  /** The statuses only the vendor may set. */
  predicate VendorStatus(s: OrderStatus) { s in {Preparing, Ready, InTransit, Delivered} }

  function Authorize(target: OrderStatus, actor: UserId, customer: UserId, vendor: Option<UserId>): (o: Outcome<OrderError>)
    ensures o.Pass? ==> target == Pending || actor == customer || (vendor.Some? && vendor.value == actor)
  {
    match target
    case Preparing | Ready | InTransit | Delivered =>
      if vendor != Some(actor) then Fail(OnlyVendor(target)) else Pass
    case Completed =>
      if actor != customer then Fail(OnlyCustomer) else Pass
    case Cancelled =>
      if actor != customer && vendor != Some(actor) then Fail(OnlyParties) else Pass
    // the source's if/elif chain has no branch for PENDING, so it is not restricted
    case Pending => Pass
  }

  predicate IsTerminal(status: string) { status == "COMPLETED" || status == "CANCELLED" }

  /** The REFUNDED row written when a held order is cancelled. */
  function RefundRow(id: RowId, o: OrderRow, actor: UserId, reason: Option<string>): Transaction {
    Transaction(
      txRef := "", amount := o.grandTotal, from := o.customer, to := Some(o.customer), orderId := Some(id),
      wallet := Some(o.customer), txType := Refunded, paymentStatus := Some("SUCCESS"), status := None,
      payMethod := None, orderType := Some("FOOD"),
      details := map["label" := "CREDIT", "reason" := reason.GetOr("ORDER_CANCELLED"),
                     "cancelled_by" := if o.vendor == Some(actor) then "VENDOR" else "CUSTOMER"])
  }

  /** The vendor side of a wallet delta: a row without a vendor has no wallet to move. */
  function VendorDelta(ws: map<UserId, Wallet>, vendor: Option<UserId>, dBalance: real, dEscrow: real): map<UserId, Wallet> {
    if vendor.Some? then AddToWallet(ws, vendor.value, dBalance, dEscrow) else ws
  }

  datatype OrderStep = OrderStep(tables: Tables, result: Result<OrderStatus, OrderError>)

  /** The whole effect of `update_order_status` on the database. */
  function UpdateOrderStatusSpec(t: Tables, id: RowId, tableName: string, target: OrderStatus, actor: UserId,
                                 reason: Option<string>): (r: OrderStep)
    ensures r.result.Failure? ==> r.tables == t
    ensures r.tables.orders.Keys == t.orders.Keys
    ensures |t.transactions| <= |r.tables.transactions| <= |t.transactions| + 1
  {
    if id !in t.orders || t.orders[id].table != tableName then OrderStep(t, Failure(OrderNotFound))
    else
      var o := t.orders[id];
      match Authorize(target, actor, o.customer, o.vendor)
      case Fail(e) => OrderStep(t, Failure(e))
      case Pass =>
        if IsTerminal(o.status) then OrderStep(t, Failure(TerminalState(o.status)))
        else if target == Completed then
          if !HoldsEscrow(t.transactions, id) then OrderStep(t, Failure(EscrowNotHeld))
          else if o.amountDue.None? then OrderStep(t, Failure(AmountsMissing))
          else OrderStep(ReleaseTables(t, id, o), Success(target))
        else if target == Cancelled && HoldsEscrow(t.transactions, id) then
          OrderStep(RefundTables(t, id, o, actor, reason), Success(target))
        else
          OrderStep(t.(orders := t.orders[id := o.(status := target.Name())]), Success(target))
  }

  /** The writes of a completion: two wallet deltas, the hold relabelled, the status set. */
  function ReleaseTables(t: Tables, id: RowId, o: OrderRow): (r: Tables)
    requires o.amountDue.Some?
    ensures !HoldsEscrow(r.transactions, id)
    ensures |r.transactions| == |t.transactions| && r.orders.Keys == t.orders.Keys
  {
    var ws := VendorDelta(AddToWallet(t.wallets, o.customer, 0.0, -o.grandTotal), o.vendor, o.amountDue.value, -o.grandTotal);
    t.(wallets := ws, transactions := ReleaseHolds(t.transactions, id), orders := if id in t.orders then t.orders[id := o.(status := "COMPLETED")] else t.orders)
  }

  /** The writes of a refunding cancellation: two wallet deltas, one REFUNDED row, the status set. */
  function RefundTables(t: Tables, id: RowId, o: OrderRow, actor: UserId, reason: Option<string>): (r: Tables)
    ensures r.transactions == t.transactions + [RefundRow(id, o, actor, reason)]
    ensures r.transactions[|t.transactions|].txType == Refunded && r.orders.Keys == t.orders.Keys
  {
    var ws := VendorDelta(AddToWallet(t.wallets, o.customer, o.grandTotal, -o.grandTotal), o.vendor, 0.0, -o.grandTotal);
    t.(wallets := ws, transactions := t.transactions + [RefundRow(id, o, actor, reason)],
       orders := if id in t.orders then t.orders[id := o.(status := "CANCELLED", paymentStatus := "REFUNDED")] else t.orders)
  }

  method Release(db: Database, id: RowId, o: OrderRow)
    requires o.amountDue.Some?
    modifies db
    ensures db.Snapshot() == ReleaseTables(old(db.Snapshot()), id, o)
  {
    db.UpdateUserWallet(o.customer, 0.0, -o.grandTotal);
    if o.vendor.Some? {
      db.UpdateUserWallet(o.vendor.value, o.amountDue.value, -o.grandTotal);
    }
    db.ReleaseOrderHolds(id);
    db.UpdateOrder(id, o.(status := "COMPLETED"));
  }

  method Refund(db: Database, id: RowId, o: OrderRow, actor: UserId, reason: Option<string>)
    modifies db
    ensures db.Snapshot() == RefundTables(old(db.Snapshot()), id, o, actor, reason)
  {
    db.UpdateUserWallet(o.customer, o.grandTotal, -o.grandTotal);
    if o.vendor.Some? {
      db.UpdateUserWallet(o.vendor.value, 0.0, -o.grandTotal);
    }
    db.InsertTransaction(RefundRow(id, o, actor, reason));
    db.UpdateOrder(id, o.(status := "CANCELLED", paymentStatus := "REFUNDED"));
  }

  /** `update_order_status` over the Supabase client. */
  method UpdateOrderStatus(db: Database, id: RowId, tableName: string, target: OrderStatus, actor: UserId,
                           reason: Option<string>)
    returns (r: Result<OrderStatus, OrderError>)
    modifies db
    ensures OrderStep(db.Snapshot(), r) == UpdateOrderStatusSpec(old(db.Snapshot()), id, tableName, target, actor, reason)
  {
    if id !in db.orders || db.orders[id].table != tableName {
      return Failure(OrderNotFound);
    }
    var o := db.orders[id];
    var auth := Authorize(target, actor, o.customer, o.vendor);
    if auth.Fail? {
      return Failure(auth.error);
    }
    if IsTerminal(o.status) {
      return Failure(TerminalState(o.status));
    }
    var held := exists i :: 0 <= i < |db.transactions| && db.transactions[i].orderId == Some(id) &&
                            db.transactions[i].txType == EscrowHold;
    if target == Completed {
      if !held {
        return Failure(EscrowNotHeld);
      }
      if o.amountDue.None? {
        return Failure(AmountsMissing);
      }
      Release(db, id, o);
      r := Success(target);
    } else if target == Cancelled && held {
      Refund(db, id, o, actor, reason);
      r := Success(target);
    } else {
      db.UpdateOrder(id, o.(status := target.Name()));
      r := Success(target);
    }
  }

  // ---------------------------------------------------------------------------
  // Properties
  // ---------------------------------------------------------------------------

  /** Only the vendor sets PREPARING, READY, IN_TRANSIT or DELIVERED; only the customer sets
      COMPLETED; either party sets CANCELLED; PENDING is not restricted. */
  lemma AuthorizationMatrix(target: OrderStatus, actor: UserId, customer: UserId, vendor: Option<UserId>)
    ensures Authorize(target, actor, customer, vendor).Pass? <==>
      (VendorStatus(target) && vendor == Some(actor)) ||
      (target == Completed && actor == customer) ||
      (target == Cancelled && (actor == customer || vendor == Some(actor))) ||
      target == Pending
  {
  }

  /** Every rejection leaves the whole database as it was. */
  lemma RejectionWritesNothing(t: Tables, id: RowId, tableName: string, target: OrderStatus, actor: UserId, reason: Option<string>)
    ensures UpdateOrderStatusSpec(t, id, tableName, target, actor, reason).result.Failure? ==>
      UpdateOrderStatusSpec(t, id, tableName, target, actor, reason).tables == t
  {
  }

  /** Authorization and then the terminal guard are decided before any write: an authorized
      request on a COMPLETED or CANCELLED order is refused with no write, and an unauthorized
      one is refused whatever the order's state. */
  lemma GuardsPrecedeWrites(t: Tables, id: RowId, target: OrderStatus, actor: UserId, reason: Option<string>)
    requires id in t.orders
    ensures var o := t.orders[id];
      var step := UpdateOrderStatusSpec(t, id, o.table, target, actor, reason);
      (Authorize(target, actor, o.customer, o.vendor).Fail? ==> step == OrderStep(t, Failure(Authorize(target, actor, o.customer, o.vendor).error))) &&
      (Authorize(target, actor, o.customer, o.vendor).Pass? && IsTerminal(o.status) ==> step == OrderStep(t, Failure(TerminalState(o.status))))
  {
  }

  /** Between non-terminal statuses no order is enforced: an authorized actor may set any
      status other than COMPLETED from any non-terminal state, and it is written as asked. */
  lemma NoOrderingBetweenLiveStatuses(t: Tables, id: RowId, target: OrderStatus, actor: UserId, reason: Option<string>)
    requires id in t.orders && !IsTerminal(t.orders[id].status)
    requires target != Completed
    requires Authorize(target, actor, t.orders[id].customer, t.orders[id].vendor).Pass?
    ensures var step := UpdateOrderStatusSpec(t, id, t.orders[id].table, target, actor, reason);
      step.result == Success(target) && step.tables.orders[id].status == target.Name()
  {
  }

  /** COMPLETED on an order with no ESCROW_HOLD row is refused with no write. */
  lemma CompletionNeedsHold(t: Tables, id: RowId, tableName: string, actor: UserId, reason: Option<string>)
    requires !HoldsEscrow(t.transactions, id)
    ensures UpdateOrderStatusSpec(t, id, tableName, Completed, actor, reason).tables == t
    ensures UpdateOrderStatusSpec(t, id, tableName, Completed, actor, reason).result.Failure?
  {
  }

  /** A successful completion: the customer's escrow loses the grand total, the vendor gains the
      amount due in balance and loses the grand total in escrow, no ESCROW_HOLD row of the order
      remains, each of them became an ESCROW_RELEASE row, and the order is COMPLETED. Nothing
      else changes: no other wallet, transaction, order or table. */
  lemma {:induction false} CompletionEffects(t: Tables, id: RowId, actor: UserId, reason: Option<string>)
    requires id in t.orders
    requires var o := t.orders[id]; o.vendor.Some? && o.customer != o.vendor.value && o.customer in t.wallets && o.vendor.value in t.wallets
    requires UpdateOrderStatusSpec(t, id, t.orders[id].table, Completed, actor, reason).result.Success?
    ensures var o := t.orders[id]; var v := o.vendor.value;
      var t' := UpdateOrderStatusSpec(t, id, o.table, Completed, actor, reason).tables;
      o.amountDue.Some? &&
      t'.wallets[o.customer] == Wallet(t.wallets[o.customer].balance, t.wallets[o.customer].escrow - o.grandTotal) &&
      t'.wallets[v] == Wallet(t.wallets[v].balance + o.amountDue.value, t.wallets[v].escrow - o.grandTotal) &&
      (forall u :: u in t.wallets && u != o.customer && u != v ==> t'.wallets[u] == t.wallets[u]) &&
      !HoldsEscrow(t'.transactions, id) &&
      |t'.transactions| == |t.transactions| &&
      (forall i :: 0 <= i < |t.transactions| && t.transactions[i].orderId == Some(id) && t.transactions[i].txType == EscrowHold ==>
         t'.transactions[i].txType == EscrowRelease) &&
      (forall i :: 0 <= i < |t.transactions| && !(t.transactions[i].orderId == Some(id) && t.transactions[i].txType == EscrowHold) ==>
         t'.transactions[i] == t.transactions[i]) &&
      t'.orders.Keys == t.orders.Keys &&
      (forall k :: k in t.orders && k != id ==> t'.orders[k] == t.orders[k]) &&
      t'.orders[id] == o.(status := "COMPLETED") &&
      t'.(wallets := t.wallets, transactions := t.transactions, orders := t.orders) == t
  {
    var o := t.orders[id];
    var t' := UpdateOrderStatusSpec(t, id, o.table, Completed, actor, reason).tables;
    assert t'.transactions == ReleaseHolds(t.transactions, id);
    forall i | 0 <= i < |t'.transactions|
      ensures !(t'.transactions[i].orderId == Some(id) && t'.transactions[i].txType == EscrowHold)
    {
    }
  }

  /** A cancellation with escrow held leaves the customer's balance + escrow unchanged (the
      grand total moves from escrow back to balance), takes the grand total out of the vendor's
      escrow, appends exactly one REFUNDED row naming who cancelled, and marks the order
      CANCELLED and REFUNDED. Nothing else changes: no other wallet, order, column of the order
      or table. */
  lemma CancellationRefund(t: Tables, id: RowId, actor: UserId, reason: Option<string>)
    requires id in t.orders
    requires var o := t.orders[id]; o.vendor.Some? && o.customer != o.vendor.value && o.customer in t.wallets && o.vendor.value in t.wallets
    requires HoldsEscrow(t.transactions, id)
    requires UpdateOrderStatusSpec(t, id, t.orders[id].table, Cancelled, actor, reason).result.Success?
    ensures var o := t.orders[id]; var v := o.vendor.value;
      var t' := UpdateOrderStatusSpec(t, id, o.table, Cancelled, actor, reason).tables;
      var c, c' := t.wallets[o.customer], t'.wallets[o.customer];
      c'.balance + c'.escrow == c.balance + c.escrow &&
      c'.escrow == c.escrow - o.grandTotal &&
      t'.wallets[v] == Wallet(t.wallets[v].balance, t.wallets[v].escrow - o.grandTotal) &&
      |t'.transactions| == |t.transactions| + 1 && t'.transactions[..|t.transactions|] == t.transactions &&
      var refund := t'.transactions[|t.transactions|];
      refund.txType == Refunded && refund.amount == o.grandTotal && refund.orderId == Some(id) &&
      (refund.details["cancelled_by"] == "VENDOR" <==> actor == v) &&
      (forall u :: u in t.wallets && u != o.customer && u != v ==> t'.wallets[u] == t.wallets[u]) &&
      t'.orders.Keys == t.orders.Keys &&
      (forall k :: k in t.orders && k != id ==> t'.orders[k] == t.orders[k]) &&
      t'.orders[id] == o.(status := "CANCELLED", paymentStatus := "REFUNDED") &&
      t'.(wallets := t.wallets, transactions := t.transactions, orders := t.orders) == t
  {
  }

  /** CANCELLED without a held escrow, and every status other than COMPLETED and CANCELLED,
      change only the order's status: no wallet and no transaction is written. */
  lemma StatusOnlyBranches(t: Tables, id: RowId, target: OrderStatus, actor: UserId, reason: Option<string>)
    requires target != Completed
    requires target == Cancelled ==> !HoldsEscrow(t.transactions, id)
    requires id in t.orders
    ensures var t' := UpdateOrderStatusSpec(t, id, t.orders[id].table, target, actor, reason).tables;
      t'.wallets == t.wallets && t'.transactions == t.transactions &&
      t'.orders.Keys == t.orders.Keys &&
      (forall j :: j in t.orders && j != id ==> t'.orders[j] == t.orders[j]) &&
      (t' != t ==> t'.orders[id] == t.orders[id].(status := target.Name()))
  {
  }

  // ---------------------------------------------------------------------------
  // The status-only write as the source has it
  // ---------------------------------------------------------------------------

  /** The status-only branches as written: `update(...)` on "food_orders" with the order's id,
      whatever table the order was fetched from. */
  function StatusOnlyWriteAsWritten(orders: map<RowId, OrderRow>, id: RowId, status: string): map<RowId, OrderRow> {
    if id in orders && orders[id].table == "food_orders" then orders[id := orders[id].(status := status)] else orders
  }

  /** The corrected write, to the table the order was fetched from. */
  function StatusOnlyWrite(orders: map<RowId, OrderRow>, id: RowId, status: string): (r: map<RowId, OrderRow>)
    ensures id in orders ==> id in r && r[id].status == status
  {
    if id in orders then orders[id := orders[id].(status := status)] else orders
  }

  /** For a laundry or product order the status written as the source has it is lost, though
      the call still reports success; the corrected write is what the model uses. */
  lemma FoodOrdersTableIsHardCoded(t: Tables, id: RowId, actor: UserId, reason: Option<string>)
    requires id in t.orders && t.orders[id].table == "laundry_orders" && t.orders[id].status == "PENDING"
    requires t.orders[id].vendor == Some(actor)
    ensures StatusOnlyWriteAsWritten(t.orders, id, "PREPARING")[id].status == "PENDING"
    ensures UpdateOrderStatusSpec(t, id, "laundry_orders", Preparing, actor, reason).result == Success(Preparing)
    ensures UpdateOrderStatusSpec(t, id, "laundry_orders", Preparing, actor, reason).tables.orders ==
      StatusOnlyWrite(t.orders, id, "PREPARING")
  {
  }

  // ---------------------------------------------------------------------------
  // The escrow checks as the source has them
  // ---------------------------------------------------------------------------

  /** `update_order_status` as written. After the guards, COMPLETED reads `transaction_type` off
      the list of the order's transactions and CANCELLED reads it off the order row, a dict;
      both raise AttributeError, which the function does not catch, so the request fails with
      a 500 before any write. The other statuses take the status-only write as written. */
  function UpdateOrderStatusAsWritten(t: Tables, id: RowId, tableName: string, target: OrderStatus, actor: UserId,
                                      reason: Option<string>): OrderStep {
    if id !in t.orders || t.orders[id].table != tableName then OrderStep(t, Failure(OrderNotFound))
    else
      var o := t.orders[id];
      match Authorize(target, actor, o.customer, o.vendor)
      case Fail(e) => OrderStep(t, Failure(e))
      case Pass =>
        if IsTerminal(o.status) then OrderStep(t, Failure(TerminalState(o.status)))
        else if target == Completed || target == Cancelled then OrderStep(t, Failure(AttributeLookupFailed("transaction_type")))
        else OrderStep(t.(orders := StatusOnlyWriteAsWritten(t.orders, id, target.Name())), Success(target))
  }

  /** As written, no authorized COMPLETED or CANCELLED of a live order succeeds, and none moves
      money, even when the order's escrow is held; the intended update, which the model uses,
      completes or cancels that order (see CompletionEffects and CancellationRefund). */
  lemma EscrowChecksFailAsWritten(t: Tables, id: RowId, target: OrderStatus, actor: UserId, reason: Option<string>)
    requires id in t.orders && !IsTerminal(t.orders[id].status)
    requires target == Completed || target == Cancelled
    requires Authorize(target, actor, t.orders[id].customer, t.orders[id].vendor).Pass?
    ensures UpdateOrderStatusAsWritten(t, id, t.orders[id].table, target, actor, reason) ==
      OrderStep(t, Failure(AttributeLookupFailed("transaction_type")))
    ensures HoldsEscrow(t.transactions, id) && t.orders[id].amountDue.Some? ==>
      var step := UpdateOrderStatusSpec(t, id, t.orders[id].table, target, actor, reason);
      step.result == Success(target) && step.tables.orders[id].status == target.Name()
  {
  }
}
