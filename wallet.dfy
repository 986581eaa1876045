/** The wallet service: starting a card top-up under the 50,000 ceiling, paying from the
    wallet balance, requesting a withdrawal and an administrator's approval of one. Each
    operation is a method over the database (and the pending cache) proved to have exactly the
    effect of a specification function; the lemmas below are about those functions. */
module Wallet {
  import opened Wrappers
  import opened Store
  import opened Refs

  const MaxBalance: real := 50000.0
  const MinWithdrawal: real := 1000.0
  const WithdrawalFee: real := 100.0

  datatype WalletError =
    | WalletNotFound
    | LimitReached(balance: real)
    | WouldExceedLimit(maxTopUp: real)
    | InsufficientBalance
    | BelowMinimum(minimum: real)
    | WithdrawalNotFound
    | NotPending(status: string)
    | NowCallFailed

  /** The tables after an operation and what it answered. */
  datatype WalletStep<+R> = WalletStep(tables: Tables, result: Result<R, WalletError>)

  // ---------------------------------------------------------------- top-up initiation

  /** The two ceiling checks, in their order: a balance already at the ceiling, then a top-up
      that would pass it (the error carries the largest top-up still allowed). */
  function TopUpLimit(balance: real, amount: real): (o: Outcome<WalletError>)
    ensures o.Pass? <==> balance < MaxBalance && balance + amount <= MaxBalance
    ensures o.Fail? && balance < MaxBalance ==> o.error == WouldExceedLimit(MaxBalance - balance) && o.error.maxTopUp < amount
  {
    if balance >= MaxBalance then Fail(LimitReached(balance))
    else if balance + amount > MaxBalance then Fail(WouldExceedLimit(MaxBalance - balance))
    else Pass
  }

  function TopUpTxRef(hex: string): string {
    GeneratedRef("TOPUP-", hex, 32)
  }

  /** `initiate_wallet_top_up`: reads the balance, checks the ceiling and saves the pending top-up
      the payment handler will later credit. No balance changes here. */
  method InitiateWalletTopUp(db: Database, cache: PendingCache, user: UserId, amount: real, hex: string)
    returns (r: Result<PaymentInit, WalletError>)
    modifies cache
    ensures user !in db.wallets ==> r == Failure(WalletNotFound)
    ensures user in db.wallets && TopUpLimit(db.wallets[user].balance, amount).Fail? ==>
      r == Failure(TopUpLimit(db.wallets[user].balance, amount).error)
    ensures r.Success? <==> user in db.wallets && TopUpLimit(db.wallets[user].balance, amount).Pass?
    ensures r.Success? ==>
      r.value == PaymentInit(TopUpTxRef(hex), amount) &&
      cache.pending == old(cache.pending)[PendingKey("topup", TopUpTxRef(hex)) := TopUpIntent(user, amount)]
    ensures r.Failure? ==> cache.pending == old(cache.pending)
  {
    if user !in db.wallets {
      return Failure(WalletNotFound);
    }
    var check := TopUpLimit(db.wallets[user].balance, amount);
    if check.Fail? {
      return Failure(check.error);
    }
    var txRef := TopUpTxRef(hex);
    cache.Save(PendingKey("topup", txRef), TopUpIntent(user, amount));
    r := Success(PaymentInit(txRef, amount));
  }

  /** `initiate_wallet_top_up` as written, on the wallets and the pending intents: the module
      imports the `datetime` class, so `datetime.datetime.now()` in the pending record raises
      AttributeError once both ceiling checks pass. No request succeeds and no intent is ever
      saved; the refusals before that point are those of `InitiateWalletTopUp`. */
  function InitiateWalletTopUpAsWritten(ws: map<UserId, Wallet>, p: map<string, Intent>, user: UserId, amount: real)
    : (r: (Result<PaymentInit, WalletError>, map<string, Intent>))
    ensures r.1 == p && r.0.Failure?
    ensures r.0.error == NowCallFailed <==> user in ws && TopUpLimit(ws[user].balance, amount).Pass?
    ensures user in ws && TopUpLimit(ws[user].balance, amount).Fail? ==> r.0.error == TopUpLimit(ws[user].balance, amount).error
  {
    if user !in ws then (Failure(WalletNotFound), p)
    else
      var check := TopUpLimit(ws[user].balance, amount);
      if check.Fail? then (Failure(check.error), p) else (Failure(NowCallFailed), p)
  }

  /** A balance already at the ceiling accepts no top-up at all, whatever the amount. */
  lemma FullWalletRefusesEveryTopUp(balance: real, amount: real)
    requires balance >= MaxBalance
    ensures TopUpLimit(balance, amount) == Fail(LimitReached(balance))
  {
  }

  // ---------------------------------------------------------------- pay with wallet

  datatype WalletPaid = WalletPaid(newBalance: real, txRef: string)

  /** A wallet payment's ledger row: from the payer, method WALLET, status COMPLETED, with the
      request's type or ORDER_PAYMENT when none (or an empty one) is given. */
  function WalletPaymentRow(txRef: string, user: UserId, amount: real, to: Option<UserId>, orderId: Option<RowId>,
                            txType: Option<string>, details: map<string, string>): Transaction {
    var kind := if txType.None? || txType.value == "" then "ORDER_PAYMENT" else txType.value;
    Transaction(txRef, amount, user, to, orderId, None, OtherType(kind), None, Some("COMPLETED"), Some("WALLET"), None, details)
  }

  function PayTxRef(hex: string): string {
    GeneratedRef("PAY-", hex, 22)
  }

  function PayWithWalletSpec(t: Tables, user: UserId, amount: real, to: Option<UserId>, orderId: Option<RowId>,
                             txType: Option<string>, details: map<string, string>, hex: string): (r: WalletStep<WalletPaid>)
    ensures r.result.Failure? ==> r.tables == t
    ensures r.result.Success? ==>
      user in t.wallets && amount <= t.wallets[user].balance && r.result.value.newBalance == t.wallets[user].balance - amount
  {
    if user !in t.wallets then WalletStep(t, Failure(WalletNotFound))
    else if t.wallets[user].balance < amount then WalletStep(t, Failure(InsufficientBalance))
    else
      var ws := AddToField(t.wallets, user, -amount, BalanceField);
      var txRef := PayTxRef(hex);
      WalletStep(t.(wallets := ws, transactions := t.transactions + [WalletPaymentRow(txRef, user, amount, to, orderId, txType, details)]),
                 Success(WalletPaid(ws[user].balance, txRef)))
  }

  /** `pay_with_wallet` (the service): checks the balance, debits it through
      `update_wallet_balance`, re-reads it and records the payment. */
  method PayWithWallet(db: Database, user: UserId, amount: real, to: Option<UserId>, orderId: Option<RowId>,
                       txType: Option<string>, details: map<string, string>, hex: string)
    returns (r: Result<WalletPaid, WalletError>)
    modifies db
    ensures WalletStep(db.Snapshot(), r) == PayWithWalletSpec(old(db.Snapshot()), user, amount, to, orderId, txType, details, hex)
  {
    if user !in db.wallets {
      return Failure(WalletNotFound);
    }
    if db.wallets[user].balance < amount {
      return Failure(InsufficientBalance);
    }
    db.UpdateWalletBalance(user, -amount, BalanceField);
    var newBalance := db.wallets[user].balance;
    var txRef := PayTxRef(hex);
    db.InsertTransaction(WalletPaymentRow(txRef, user, amount, to, orderId, txType, details));
    r := Success(WalletPaid(newBalance, txRef));
  }

  /** A wallet payment either changes nothing and fails, or debits exactly `amount` from the
      payer's balance (never below zero), leaves every escrow and every other wallet alone,
      reports the new balance and appends one COMPLETED row under a fresh PAY- reference. */
  lemma WalletPaymentEffects(t: Tables, user: UserId, amount: real, to: Option<UserId>, orderId: Option<RowId>,
                             txType: Option<string>, details: map<string, string>, hex: string)
    ensures var s := PayWithWalletSpec(t, user, amount, to, orderId, txType, details, hex);
      s.result.Failure? ==> s.tables == t
    ensures var s := PayWithWalletSpec(t, user, amount, to, orderId, txType, details, hex);
      s.result.Success? <==> user in t.wallets && t.wallets[user].balance >= amount
    ensures var s := PayWithWalletSpec(t, user, amount, to, orderId, txType, details, hex);
      s.result.Success? ==>
        s.tables.wallets.Keys == t.wallets.Keys &&
        s.tables.wallets[user] == Wallet(t.wallets[user].balance - amount, t.wallets[user].escrow) &&
        s.tables.wallets[user].balance >= 0.0 &&
        (forall u :: u in t.wallets && u != user ==> s.tables.wallets[u] == t.wallets[u]) &&
        s.result.value.newBalance == t.wallets[user].balance - amount &&
        StartsWith(s.result.value.txRef, "PAY-") &&
        s.tables.transactions == t.transactions + [WalletPaymentRow(s.result.value.txRef, user, amount, to, orderId, txType, details)] &&
        s.tables.(wallets := t.wallets, transactions := t.transactions) == t
  {
  }

  /** The service's own examples: 5,000 paying 1,000 leaves 4,000; 500 cannot pay 1,000. */
  lemma WalletPaymentExamples(t: Tables, user: UserId, details: map<string, string>, hex: string)
    requires user in t.wallets
    ensures t.wallets[user].balance == 5000.0 ==>
      PayWithWalletSpec(t, user, 1000.0, None, None, Some("ORDER"), details, hex).tables.wallets[user].balance == 4000.0
    ensures t.wallets[user].balance == 500.0 ==>
      PayWithWalletSpec(t, user, 1000.0, None, None, None, details, hex).result == Failure(InsufficientBalance)
  {
  }

  // ---------------------------------------------------------------- withdrawals

  function RequestWithdrawalSpec(t: Tables, user: UserId, amount: real, bank: string, accountNumber: string, accountName: string)
    : WalletStep<RowId>
  {
    if user !in t.wallets then WalletStep(t, Failure(WalletNotFound))
    else if amount < MinWithdrawal then WalletStep(t, Failure(BelowMinimum(MinWithdrawal)))
    else if t.wallets[user].balance < amount then WalletStep(t, Failure(InsufficientBalance))
    else
      var id := t.nextId;
      WalletStep(t.(wallets := AddToField(t.wallets, user, -amount, BalanceField),
                    withdrawals := t.withdrawals[id := Store.Withdrawal.Withdrawal(user, amount, WithdrawalFee, bank, accountNumber, accountName, "PENDING", None)],
                    nextId := id + 1),
                 Success(id))
  }

  /** `request_withdrawal`: checks the minimum and the balance, debits the whole amount at once
      and records a PENDING withdrawal carrying the flat fee. */
  method RequestWithdrawal(db: Database, user: UserId, amount: real, bank: string, accountNumber: string, accountName: string)
    returns (r: Result<RowId, WalletError>)
    modifies db
    ensures WalletStep(db.Snapshot(), r) == RequestWithdrawalSpec(old(db.Snapshot()), user, amount, bank, accountNumber, accountName)
  {
    if user !in db.wallets {
      return Failure(WalletNotFound);
    }
    if amount < MinWithdrawal {
      return Failure(BelowMinimum(MinWithdrawal));
    }
    if db.wallets[user].balance < amount {
      return Failure(InsufficientBalance);
    }
    db.UpdateWalletBalance(user, -amount, BalanceField);
    var id := db.InsertWithdrawal(Store.Withdrawal.Withdrawal(user, amount, WithdrawalFee, bank, accountNumber, accountName, "PENDING", None));
    r := Success(id);
  }

  /** An accepted withdrawal is at least 1,000, was covered by the balance, takes the whole amount
      from the balance (the 100 fee is recorded on the row, not charged on top) and creates one
      PENDING row under a new id; a refused one changes nothing. */
  lemma WithdrawalRequestEffects(t: Tables, user: UserId, amount: real, bank: string, accountNumber: string, accountName: string)
    ensures var s := RequestWithdrawalSpec(t, user, amount, bank, accountNumber, accountName);
      s.result.Failure? ==> s.tables == t
    ensures var s := RequestWithdrawalSpec(t, user, amount, bank, accountNumber, accountName);
      s.result.Success? <==> user in t.wallets && amount >= MinWithdrawal && t.wallets[user].balance >= amount
    ensures var s := RequestWithdrawalSpec(t, user, amount, bank, accountNumber, accountName);
      s.result.Success? ==>
        s.result.value == t.nextId && s.tables.nextId == t.nextId + 1 &&
        s.tables.withdrawals.Keys == t.withdrawals.Keys + {s.result.value} &&
        s.tables.withdrawals[s.result.value].status == "PENDING" &&
        s.tables.withdrawals[s.result.value].amount == amount &&
        s.tables.withdrawals[s.result.value].fee == 100.0 &&
        s.tables.wallets[user].balance == t.wallets[user].balance - amount &&
        s.tables.wallets[user].escrow == t.wallets[user].escrow
  {
  }

  function TransferRef(hex: string): string {
    GeneratedRef("TRF-", hex, 12)
  }

  function ApproveWithdrawalSpec(t: Tables, id: RowId, hex: string): WalletStep<string> {
    if id !in t.withdrawals then WalletStep(t, Failure(WithdrawalNotFound))
    else if t.withdrawals[id].status != "PENDING" then WalletStep(t, Failure(NotPending(t.withdrawals[id].status)))
    else
      var ref := TransferRef(hex);
      WalletStep(t.(withdrawals := t.withdrawals[id := t.withdrawals[id].(status := "PROCESSING", transferRef := Some(ref))]), Success(ref))
  }

  /** `approve_withdrawal`: a PENDING withdrawal moves to PROCESSING with a transfer reference. */
  method ApproveWithdrawal(db: Database, id: RowId, hex: string) returns (r: Result<string, WalletError>)
    modifies db
    ensures WalletStep(db.Snapshot(), r) == ApproveWithdrawalSpec(old(db.Snapshot()), id, hex)
  {
    if id !in db.withdrawals {
      return Failure(WithdrawalNotFound);
    }
    var w := db.withdrawals[id];
    if w.status != "PENDING" {
      return Failure(NotPending(w.status));
    }
    var ref := TransferRef(hex);
    db.UpdateWithdrawal(id, w.(status := "PROCESSING", transferRef := Some(ref)));
    r := Success(ref);
  }

  /** Approval touches only that withdrawal's status and reference, moves no money, and can
      happen once: a second approval of the same withdrawal is refused. */
  lemma ApprovalHappensOnce(t: Tables, id: RowId, hex1: string, hex2: string)
    ensures var s := ApproveWithdrawalSpec(t, id, hex1);
      s.result.Success? ==>
        s.tables.wallets == t.wallets && s.tables.withdrawals.Keys == t.withdrawals.Keys &&
        s.tables.withdrawals[id] == t.withdrawals[id].(status := "PROCESSING", transferRef := Some(s.result.value)) &&
        ApproveWithdrawalSpec(s.tables, id, hex2) == WalletStep(s.tables, Failure(NotPending("PROCESSING")))
    ensures ApproveWithdrawalSpec(t, id, hex1).result.Success? <==> id in t.withdrawals && t.withdrawals[id].status == "PENDING"
  {
  }
}
