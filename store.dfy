/** The persistent and ephemeral state the core works on: the Supabase tables (wallets,
    transactions, order tables, payout and escrow-agreement tables), the Redis cache of
    pending checkout intents, and the two job queues. The SQL stored procedures are opaque;
    `update_user_wallet` and `update_wallet_balance` are modelled as additive updates of an
    existing wallet row that leave the wallets untouched when the user has no wallet.
    Row identifiers generated by the database are drawn from one counter, `nextId`. */
module Store {
  import opened Wrappers

  type UserId = string
  type RowId = nat

  datatype Wallet = Wallet(balance: real, escrow: real)

  /** What a checkout initiation hands to the payment page: the reference and the amount to charge. */
  datatype PaymentInit = PaymentInit(txRef: string, amount: real)

  datatype TxType = Deposit | Withdrawal | EscrowHold | EscrowRelease | Refunded | OtherType(name: string)

  /** A row of the `transactions` table; `details` is its JSON details object. */
  datatype Transaction = Transaction(
    txRef: string,
    amount: real,
    from: UserId,
    to: Option<UserId>,
    orderId: Option<RowId>,
    wallet: Option<UserId>,
    txType: TxType,
    paymentStatus: Option<string>,
    status: Option<string>,
    payMethod: Option<string>,
    orderType: Option<string>,
    details: map<string, string>)

  /** A row of one of the order tables (delivery_orders, food_orders, product_orders,
      laundry_orders); `table` names the table it lives in. For a delivery the customer is
      the sender and there is no vendor. */
  datatype OrderRow = OrderRow(
    table: string,
    customer: UserId,
    vendor: Option<UserId>,
    grandTotal: real,
    amountDue: Option<real>,
    status: string,
    paymentStatus: string,
    escrowStatus: Option<string>,
    txRef: string,
    orderType: string)

  datatype CartItem = CartItem(itemId: string, quantity: int)

  /** A row of food_order_items or product_order_items. */
  datatype OrderItem = OrderItem(orderId: RowId, itemId: string, quantity: int)

  /** A row of platform_commissions. */
  datatype CommissionRecord = CommissionRecord(
    serviceType: string, orderId: Option<RowId>, from: Option<UserId>, to: Option<UserId>, amount: Option<real>)

  /** A row of wallet_payment. */
  datatype WalletPayment = WalletPayment(txRef: string, amount: real, status: string, user: UserId)

  /** A row of withdrawals. */
  datatype Withdrawal = Withdrawal(
    user: UserId, amount: real, fee: real, bankName: string, accountNumber: string, accountName: string,
    status: string, transferRef: Option<string>)

  /** A row of escrow_agreements. */
  datatype Agreement = Agreement(initiator: UserId, amount: real, commissionRate: real, status: string)

  /** A row of escrow_agreement_parties; `confirmed` is has_confirmed_completion, NULL until the party votes. */
  datatype Party = Party(
    agreementId: RowId, email: string, role: string, share: real, user: Option<UserId>,
    inviteCode: string, hasAccepted: bool, confirmed: Option<bool>)

  /** A row of escrow_completion_proposals. */
  datatype Proposal = Proposal(agreementId: RowId, proposer: UserId, notes: string)

  /** The single row of charges_and_commissions. */
  datatype ChargesRow = ChargesRow(
    baseDeliveryFee: real, deliveryFeePerKm: real, deliveryCommissionRate: real,
    deliveryCommissionPercentage: real, foodCommissionPercentage: real,
    laundryCommissionPercentage: real, productCommissionPercentage: real)

  /** The whole database as a value. */
  datatype Tables = Tables(
    wallets: map<UserId, Wallet>,
    transactions: seq<Transaction>,
    orders: map<RowId, OrderRow>,
    items: seq<OrderItem>,
    commissions: seq<CommissionRecord>,
    walletPayments: seq<WalletPayment>,
    withdrawals: map<RowId, Withdrawal>,
    agreements: map<RowId, Agreement>,
    parties: seq<Party>,
    proposals: map<RowId, Proposal>,
    charges: Option<ChargesRow>,
    nextId: RowId)

  /** A pending checkout intent, as stored in Redis under `pending_<vertical>_<tx_ref>`. */
  datatype Intent =
    | DeliveryIntent(sender: UserId, fee: real, amountDueDispatch: Option<real>)
    | FoodIntent(customer: UserId, vendor: UserId, grandTotal: real, cart: seq<CartItem>, name: string)
    | TopUpIntent(user: UserId, amount: real)
    | ProductIntent(customer: UserId, vendor: UserId, grandTotal: real, subtotal: real, productId: string, quantity: int)
    | LaundryIntent(customer: UserId, vendor: UserId, grandTotal: real, subtotal: real)

  /** The payment handlers a queued job can name. */
  datatype Handler = DeliveryHandler | FoodHandler | TopUpHandler | LaundryHandler | ProductHandler

  datatype Retry = Retry(max: nat, intervals: seq<nat>)

  /** An RQ job: the handler and its keyword arguments. */
  datatype Job = Job(handler: Handler, txRef: string, paidAmount: real, flwRef: string, paymentMethod: string, retry: Retry)

  /** A pgmq message on payment_queue. */
  datatype QueueMessage = QueueMessage(queueName: string, txRef: string, paidAmount: real, flwRef: string, paymentMethod: string, sleepSeconds: nat)

  datatype WalletField = BalanceField | EscrowField

  /** `update_user_wallet`: add both deltas to the user's wallet. */
  function AddToWallet(ws: map<UserId, Wallet>, user: UserId, dBalance: real, dEscrow: real): (r: map<UserId, Wallet>)
    ensures r.Keys == ws.Keys
    ensures forall u :: u in ws && u != user ==> r[u] == ws[u]
    ensures user in ws ==> r[user] == Wallet(ws[user].balance + dBalance, ws[user].escrow + dEscrow)
  {
    if user in ws then ws[user := Wallet(ws[user].balance + dBalance, ws[user].escrow + dEscrow)] else ws
  }

  /** `update_wallet_balance`: add a delta to one field of the user's wallet. */
  function AddToField(ws: map<UserId, Wallet>, user: UserId, delta: real, field: WalletField): (r: map<UserId, Wallet>)
    ensures r == if field == BalanceField then AddToWallet(ws, user, delta, 0.0) else AddToWallet(ws, user, 0.0, delta)
  {
    if user !in ws then ws
    else if field == BalanceField then ws[user := ws[user].(balance := ws[user].balance + delta)]
    else ws[user := ws[user].(escrow := ws[user].escrow + delta)]
  }

  predicate HasTxRef(txs: seq<Transaction>, txRef: string) {
    exists i :: 0 <= i < |txs| && txs[i].txRef == txRef
  }

  /** The ESCROW_HOLD rows an order still has. */
  predicate HoldsEscrow(txs: seq<Transaction>, orderId: RowId) {
    exists i :: 0 <= i < |txs| && txs[i].orderId == Some(orderId) && txs[i].txType == EscrowHold
  }

  /** `update({transaction_type: ESCROW_RELEASE}).eq(order_id).eq(transaction_type, ESCROW_HOLD)`. */
  function ReleaseHolds(txs: seq<Transaction>, orderId: RowId): (r: seq<Transaction>)
    ensures |r| == |txs|
    ensures forall i :: 0 <= i < |txs| ==>
      r[i] == if txs[i].orderId == Some(orderId) && txs[i].txType == EscrowHold
              then txs[i].(txType := EscrowRelease) else txs[i]
  {
    seq(|txs|, i requires 0 <= i < |txs| =>
      if txs[i].orderId == Some(orderId) && txs[i].txType == EscrowHold then txs[i].(txType := EscrowRelease) else txs[i])
  }

  /** The Supabase client: one field per table. */
  class Database {
    var wallets: map<UserId, Wallet>
    var transactions: seq<Transaction>
    var orders: map<RowId, OrderRow>
    var items: seq<OrderItem>
    var commissions: seq<CommissionRecord>
    var walletPayments: seq<WalletPayment>
    var withdrawals: map<RowId, Withdrawal>
    var agreements: map<RowId, Agreement>
    var parties: seq<Party>
    var proposals: map<RowId, Proposal>
    var charges: Option<ChargesRow>
    var nextId: RowId

    function Snapshot(): Tables
      reads this
    {
      Tables(wallets, transactions, orders, items, commissions, walletPayments, withdrawals,
             agreements, parties, proposals, charges, nextId)
    }

    constructor (t: Tables)
      ensures Snapshot() == t
    {
      wallets, transactions, orders, items := t.wallets, t.transactions, t.orders, t.items;
      commissions, walletPayments, withdrawals := t.commissions, t.walletPayments, t.withdrawals;
      agreements, parties, proposals := t.agreements, t.parties, t.proposals;
      charges, nextId := t.charges, t.nextId;
    }

    /** The `update_user_wallet` stored procedure (additive, by assumption). */
    method UpdateUserWallet(user: UserId, dBalance: real, dEscrow: real)
      modifies this
      ensures Snapshot() == old(Snapshot()).(wallets := AddToWallet(old(wallets), user, dBalance, dEscrow))
    {
      wallets := AddToWallet(wallets, user, dBalance, dEscrow);
    }

    /** The `update_wallet_balance` stored procedure. */
    method UpdateWalletBalance(user: UserId, delta: real, field: WalletField)
      modifies this
      ensures Snapshot() == old(Snapshot()).(wallets := AddToField(old(wallets), user, delta, field))
    {
      wallets := AddToField(wallets, user, delta, field);
    }

    method InsertTransaction(tx: Transaction)
      modifies this
      ensures Snapshot() == old(Snapshot()).(transactions := old(transactions) + [tx])
    {
      transactions := transactions + [tx];
    }

    method InsertOrder(row: OrderRow) returns (id: RowId)
      modifies this
      ensures id == old(nextId)
      ensures Snapshot() == old(Snapshot()).(orders := old(orders)[id := row], nextId := id + 1)
    {
      id := nextId;
      orders := orders[id := row];
      nextId := nextId + 1;
    }

    method InsertItem(item: OrderItem)
      modifies this
      ensures Snapshot() == old(Snapshot()).(items := old(items) + [item])
    {
      items := items + [item];
    }

    method InsertCommission(c: CommissionRecord)
      modifies this
      ensures Snapshot() == old(Snapshot()).(commissions := old(commissions) + [c])
    {
      commissions := commissions + [c];
    }

    method ReleaseOrderHolds(orderId: RowId)
      modifies this
      ensures Snapshot() == old(Snapshot()).(transactions := ReleaseHolds(old(transactions), orderId))
    {
      transactions := ReleaseHolds(transactions, orderId);
    }

    /** `update(...).eq("id", id)` on an order table: no row, no change. */
    method UpdateOrder(id: RowId, row: OrderRow)
      modifies this
      ensures Snapshot() == old(Snapshot()).(orders := if id in old(orders) then old(orders)[id := row] else old(orders))
    {
      if id in orders {
        orders := orders[id := row];
      }
    }

    method InsertWalletPayment(p: WalletPayment)
      modifies this
      ensures Snapshot() == old(Snapshot()).(walletPayments := old(walletPayments) + [p])
    {
      walletPayments := walletPayments + [p];
    }

    method InsertWithdrawal(w: Withdrawal) returns (id: RowId)
      modifies this
      ensures id == old(nextId)
      ensures Snapshot() == old(Snapshot()).(withdrawals := old(withdrawals)[id := w], nextId := id + 1)
    {
      id := nextId;
      withdrawals := withdrawals[id := w];
      nextId := nextId + 1;
    }

    method UpdateWithdrawal(id: RowId, w: Withdrawal)
      requires id in withdrawals
      modifies this
      ensures Snapshot() == old(Snapshot()).(withdrawals := old(withdrawals)[id := w])
    {
      withdrawals := withdrawals[id := w];
    }

    method InsertAgreement(a: Agreement) returns (id: RowId)
      modifies this
      ensures id == old(nextId)
      ensures Snapshot() == old(Snapshot()).(agreements := old(agreements)[id := a], nextId := id + 1)
    {
      id := nextId;
      agreements := agreements[id := a];
      nextId := nextId + 1;
    }

    method UpdateAgreement(id: RowId, a: Agreement)
      requires id in agreements
      modifies this
      ensures Snapshot() == old(Snapshot()).(agreements := old(agreements)[id := a])
    {
      agreements := agreements[id := a];
    }

    /** One bulk insert of party rows; a party row is identified by its position in the table. */
    method InsertParties(ps: seq<Party>)
      modifies this
      ensures Snapshot() == old(Snapshot()).(parties := old(parties) + ps)
    {
      parties := parties + ps;
    }

    method UpdateParty(id: RowId, p: Party)
      requires id < |parties|
      modifies this
      ensures Snapshot() == old(Snapshot()).(parties := old(parties)[id := p])
    {
      parties := parties[id := p];
    }

    method InsertProposal(p: Proposal) returns (id: RowId)
      modifies this
      ensures id == old(nextId)
      ensures Snapshot() == old(Snapshot()).(proposals := old(proposals)[id := p], nextId := id + 1)
    {
      id := nextId;
      proposals := proposals[id := p];
      nextId := nextId + 1;
    }

    /** `select("id").eq("tx_ref", txRef)` on transactions, answered as "is there a row". */
    method TransactionExists(txRef: string) returns (found: bool)
      ensures found == HasTxRef(transactions, txRef)
    {
      found := exists i :: 0 <= i < |transactions| && transactions[i].txRef == txRef;
    }
  }

  /** The Redis client as the core uses it: the pending-intent keys (TTLs are not modelled). */
  class PendingCache {
    var pending: map<string, Intent>

    constructor (m: map<string, Intent>)
      ensures pending == m
    {
      pending := m;
    }

    method Save(key: string, intent: Intent)
      modifies this
      ensures pending == old(pending)[key := intent]
    {
      pending := pending[key := intent];
    }

    method Get(key: string) returns (r: Option<Intent>)
      ensures r == if key in pending then Some(pending[key]) else None
    {
      r := if key in pending then Some(pending[key]) else None;
    }

    method Delete(key: string)
      modifies this
      ensures pending == old(pending) - {key}
    {
      pending := pending - {key};
    }
  }

  /** The RQ queue and the pgmq `payment_queue`, as the sequences of what was put on them. */
  class JobQueue {
    var jobs: seq<Job>
    var messages: seq<QueueMessage>

    constructor ()
      ensures jobs == [] && messages == []
    {
      jobs, messages := [], [];
    }

    method Enqueue(job: Job)
      modifies this
      ensures jobs == old(jobs) + [job] && messages == old(messages)
    {
      jobs := jobs + [job];
    }

    method Send(m: QueueMessage)
      modifies this
      ensures messages == old(messages) + [m] && jobs == old(jobs)
    {
      messages := messages + [m];
    }
  }
}
