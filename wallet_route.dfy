/** `pay_with_wallet` (the route): a payment funded from the wallet. After the balance check it
    refuses a tx_ref that already has a wallet_payment row, records one row with status
    "success", picks the handler from the tx_ref prefix exactly as the webhook does, and then
    both enqueues a job and sends the same message to the `payment_queue` queue. */
module WalletRoute {
  import opened Wrappers
  import opened Store
  import PaymentRoute

  datatype Column = IdColumn | TxRefColumn | AmountColumn | StatusColumn | UserColumn

  datatype Cell = IdCell(id: nat) | TextCell(text: string) | AmountCell(amount: real)

  datatype WalletReply =
    | BalanceRejected
    | AlreadyInitiated(status: string, txRef: string, amount: real)
    | ServerError
    | MissingTxRef
    | UnknownTransactionType
    | Redirect(url: string)

  /** The new wallet_payment rows and the two queues after one request, with its reply. */
  datatype RouteStep = RouteStep(payments: seq<WalletPayment>, jobs: seq<Job>, messages: seq<QueueMessage>, reply: WalletReply)

  /** The index of the first wallet_payment row with this tx_ref (`existing.data[0]`). */
  function FirstPayment(ps: seq<WalletPayment>, txRef: string): (r: Option<nat>)
    ensures r.Some? ==> r.value < |ps| && ps[r.value].txRef == txRef &&
                        forall j :: 0 <= j < r.value ==> ps[j].txRef != txRef
    ensures r.None? ==> forall j :: 0 <= j < |ps| ==> ps[j].txRef != txRef
  {
    if |ps| == 0 then None
    else if ps[0].txRef == txRef then Some(0)
    else match FirstPayment(ps[1..], txRef)
      case None => None
      case Some(i) => Some(i + 1)
  }

  function CellOf(id: nat, w: WalletPayment, c: Column): Cell {
    match c
    case IdColumn => IdCell(id)
    case TxRefColumn => TextCell(w.txRef)
    case AmountColumn => AmountCell(w.amount)
    case StatusColumn => TextCell(w.status)
    case UserColumn => TextCell(w.user)
  }

  /** A row as a select of `columns` returns it: only the selected columns are present. */
  function Project(id: nat, w: WalletPayment, columns: set<Column>): (row: map<Column, Cell>)
    ensures row.Keys == columns
  {
    map c | c in columns :: CellOf(id, w, c)
  }

  /** The early reply reads `status`, `tx_ref` and `amount` from the fetched row; a column the
      select did not fetch is a `KeyError`, which the server answers with a 500. */
  function ExistingReply(row: map<Column, Cell>): WalletReply {
    if StatusColumn in row && TxRefColumn in row && AmountColumn in row &&
       row[StatusColumn].TextCell? && row[TxRefColumn].TextCell? && row[AmountColumn].AmountCell?
    then AlreadyInitiated(row[StatusColumn].text, row[TxRefColumn].text, row[AmountColumn].amount)
    else ServerError
  }

  /** `.select("id, status")`, as the idempotency lookup is written. */
  const SelectedAsWritten: set<Column> := {IdColumn, StatusColumn}

  /** The columns the early reply needs. */
  const ReplayColumns: set<Column> := {IdColumn, StatusColumn, TxRefColumn, AmountColumn}

  /** The early reply as written: the row `ps[i]` fetched with `id, status` only. */
  function ReplyToReplayAsWritten(ps: seq<WalletPayment>, i: nat): WalletReply
    requires i < |ps|
  {
    ExistingReply(Project(i, ps[i], SelectedAsWritten))
  }

  /** As written, a repeated wallet payment is never answered with "already initiated": the
      lookup does not fetch `tx_ref`, so building the reply fails on every replay. */
  lemma ReplayAnswersServerErrorAsWritten(ps: seq<WalletPayment>, i: nat)
    requires i < |ps|
    ensures ReplyToReplayAsWritten(ps, i) == ServerError
  {
    assert TxRefColumn !in Project(i, ps[i], SelectedAsWritten);
  }

  function WalletFlwRef(txRef: string): string {
    "WALLET-" + txRef
  }

  function StatusUrl(frontend: string, txRef: string): string {
    frontend + "/payment/status?status=success&tx_ref=" + txRef
  }

  /** The route. `balanceVerified` is the verdict of the wallet balance check, which is not part
      of this model; a refusal there ends the request before anything is read or written. */
  function PayWithWalletSpec(frontend: string, balanceVerified: bool, user: UserId, txRef: string, amount: real,
                             ps: seq<WalletPayment>, jobs: seq<Job>, msgs: seq<QueueMessage>): (r: RouteStep)
    ensures |jobs| <= |r.jobs| <= |jobs| + 1 && r.jobs[..|jobs|] == jobs
    ensures |r.jobs| == |jobs| + 1 ==>
      r.reply.Redirect? && r.jobs[|jobs|].txRef == txRef && r.jobs[|jobs|].paymentMethod == "WALLET"
  {
    if !balanceVerified then RouteStep(ps, jobs, msgs, BalanceRejected)
    else match FirstPayment(ps, txRef)
      case Some(i) => RouteStep(ps, jobs, msgs, ExistingReply(Project(i, ps[i], ReplayColumns)))
      case None =>
        var recorded := ps + [WalletPayment(txRef, amount, "success", user)];
        if txRef == "" then RouteStep(recorded, jobs, msgs, MissingTxRef)
        else match PaymentRoute.HandlerFor(txRef)
          case None => RouteStep(recorded, jobs, msgs, UnknownTransactionType)
          case Some(h) =>
            RouteStep(recorded,
                      jobs + [Job(h, txRef, amount, WalletFlwRef(txRef), "WALLET", PaymentRoute.PaymentRetry)],
                      msgs + [QueueMessage("payment_queue", txRef, amount, WalletFlwRef(txRef), "WALLET", 30)],
                      Redirect(StatusUrl(frontend, txRef)))
  }

  method PayWithWallet(db: Database, queue: JobQueue, frontend: string, balanceVerified: bool,
                       user: UserId, txRef: string, amount: real)
    returns (reply: WalletReply)
    modifies db, queue
    ensures db.Snapshot() == old(db.Snapshot()).(walletPayments := db.walletPayments)
    ensures RouteStep(db.walletPayments, queue.jobs, queue.messages, reply) ==
      PayWithWalletSpec(frontend, balanceVerified, user, txRef, amount, old(db.walletPayments), old(queue.jobs), old(queue.messages))
  {
    if !balanceVerified {
      return BalanceRejected;
    }
    var existing := FirstPayment(db.walletPayments, txRef);
    if existing.Some? {
      var i := existing.value;
      return ExistingReply(Project(i, db.walletPayments[i], ReplayColumns));
    }
    db.InsertWalletPayment(WalletPayment(txRef, amount, "success", user));
    if txRef == "" {
      return MissingTxRef;
    }
    var handler := PaymentRoute.HandlerFor(txRef);
    if handler.None? {
      return UnknownTransactionType;
    }
    queue.Enqueue(Job(handler.value, txRef, amount, WalletFlwRef(txRef), "WALLET", PaymentRoute.PaymentRetry));
    queue.Send(QueueMessage("payment_queue", txRef, amount, WalletFlwRef(txRef), "WALLET", 30));
    reply := Redirect(StatusUrl(frontend, txRef));
  }

  /** A replayed tx_ref writes nothing, enqueues nothing and answers with the stored row. */
  lemma ReplayIsIdempotent(frontend: string, user: UserId, txRef: string, amount: real,
                           ps: seq<WalletPayment>, jobs: seq<Job>, msgs: seq<QueueMessage>, i: nat)
    requires i < |ps| && ps[i].txRef == txRef
    ensures var s := PayWithWalletSpec(frontend, true, user, txRef, amount, ps, jobs, msgs);
      s.payments == ps && s.jobs == jobs && s.messages == msgs && s.reply.AlreadyInitiated? &&
      s.reply.txRef == txRef && exists k :: 0 <= k < |ps| && ps[k].txRef == txRef && s.reply.status == ps[k].status && s.reply.amount == ps[k].amount
  {
    var k := FirstPayment(ps, txRef).value;
    var row := Project(k, ps[k], ReplayColumns);
    assert row[StatusColumn] == TextCell(ps[k].status);
  }

  /** Past the balance check every request for a new tx_ref records exactly one "success" row,
      even one that is then refused for a missing or unknown tx_ref; every other request
      records nothing. */
  lemma RecordsAtMostOnePayment(frontend: string, ok: bool, user: UserId, txRef: string, amount: real,
                                ps: seq<WalletPayment>, jobs: seq<Job>, msgs: seq<QueueMessage>)
    ensures var s := PayWithWalletSpec(frontend, ok, user, txRef, amount, ps, jobs, msgs);
      (ok && (forall j :: 0 <= j < |ps| ==> ps[j].txRef != txRef)) ==
        (s.payments == ps + [WalletPayment(txRef, amount, "success", user)])
    ensures var s := PayWithWalletSpec(frontend, ok, user, txRef, amount, ps, jobs, msgs);
      s.payments == ps || s.payments == ps + [WalletPayment(txRef, amount, "success", user)]
  {
    var s := PayWithWalletSpec(frontend, ok, user, txRef, amount, ps, jobs, msgs);
    if s.payments == ps + [WalletPayment(txRef, amount, "success", user)] {
      assert |s.payments| != |ps|;
    }
  }

  /** The job and the queue message go together: either both or neither is produced, and they
      carry the same tx_ref, amount, `WALLET-` reference and method. The handler is the one the
      webhook would pick for the same tx_ref, and the retry schedule is the webhook's. */
  lemma JobAndMessageTogether(frontend: string, ok: bool, user: UserId, txRef: string, amount: real,
                              ps: seq<WalletPayment>, jobs: seq<Job>, msgs: seq<QueueMessage>)
    ensures var s := PayWithWalletSpec(frontend, ok, user, txRef, amount, ps, jobs, msgs);
      (s.jobs == jobs && s.messages == msgs) || (|s.jobs| == |jobs| + 1 && |s.messages| == |msgs| + 1)
    ensures var s := PayWithWalletSpec(frontend, ok, user, txRef, amount, ps, jobs, msgs);
      |s.jobs| == |jobs| + 1 ==>
        s.jobs[..|jobs|] == jobs && s.messages[..|msgs|] == msgs &&
        var j := s.jobs[|jobs|];
        var m := s.messages[|msgs|];
        j.txRef == m.txRef == txRef && j.paidAmount == m.paidAmount == amount &&
        j.flwRef == m.flwRef == "WALLET-" + txRef && j.paymentMethod == m.paymentMethod == "WALLET" &&
        m.queueName == "payment_queue" && m.sleepSeconds == 30 && j.retry == PaymentRoute.PaymentRetry &&
        Some(j.handler) == PaymentRoute.HandlerFor(txRef) && s.reply == Redirect(StatusUrl(frontend, txRef))
  {
  }

  /** A job is produced exactly when the balance check passes, the tx_ref is new, non-empty and
      carries a known prefix; a new tx_ref with no known prefix is refused only after its
      payment row is recorded. */
  lemma EnqueueConditions(frontend: string, ok: bool, user: UserId, txRef: string, amount: real,
                          ps: seq<WalletPayment>, jobs: seq<Job>, msgs: seq<QueueMessage>)
    ensures var s := PayWithWalletSpec(frontend, ok, user, txRef, amount, ps, jobs, msgs);
      (|s.jobs| == |jobs| + 1) ==
        (ok && (forall j :: 0 <= j < |ps| ==> ps[j].txRef != txRef) && txRef != "" && PaymentRoute.HandlerFor(txRef).Some?)
    ensures var s := PayWithWalletSpec(frontend, ok, user, txRef, amount, ps, jobs, msgs);
      ok && (forall j :: 0 <= j < |ps| ==> ps[j].txRef != txRef) && txRef != "" && PaymentRoute.HandlerFor(txRef).None? ==>
        s.reply == UnknownTransactionType && |s.payments| == |ps| + 1 && s.jobs == jobs
  {
    var s := PayWithWalletSpec(frontend, ok, user, txRef, amount, ps, jobs, msgs);
    if ok && (forall j :: 0 <= j < |ps| ==> ps[j].txRef != txRef) {
      assert FirstPayment(ps, txRef).None?;
    }
  }
}
