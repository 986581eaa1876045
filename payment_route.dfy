/** `flutterwave_webhook`: the gateway's callback. It checks the `verif-hash` header against
    the shared secret, parses the JSON body, ignores anything but a successful charge, requires a
    tx_ref, refuses a tx_ref the ledger already has, picks the handler from the tx_ref prefix and
    enqueues one job with a fixed retry schedule. Only the enqueue is an effect. */
module PaymentRoute {
  import opened Wrappers
  import opened Store
  import opened Refs

  /** The fields of a webhook body the route reads; `None` is an absent (or null) field. */
  datatype EventData = EventData(status: Option<string>, txRef: Option<string>, amount: real, flwRef: Option<string>)

  /** A parsed body: `data` is None when the body has no (or an empty) `data` object. */
  datatype Payload = Payload(data: Option<EventData>, top: EventData)

  datatype WebhookReply =
    | SignatureHeaderMissing
    | InvalidSignature
    | InvalidJson
    | Ignored(status: Option<string>)
    | MissingTxRef
    | AlreadyProcessed(txRef: string)
    | UnknownTransactionType
    | Queued(txRef: string)

  /** `Retry(max=5, interval=[30, 60, 120, 300, 600])`. */
  const PaymentRetry: Retry := Retry(5, [30, 60, 120, 300, 600])

  /** The retry schedule backs off: its intervals strictly increase and there is one per retry. */
  lemma RetryScheduleBacksOff()
    ensures |PaymentRetry.intervals| == PaymentRetry.max
    ensures forall i, j :: 0 <= i < j < |PaymentRetry.intervals| ==> PaymentRetry.intervals[i] < PaymentRetry.intervals[j]
  {
  }

  function PrefixOf(h: Handler): string {
    match h
    case DeliveryHandler => "DELIVERY-"
    case FoodHandler => "FOOD-"
    case TopUpHandler => "TOPUP-"
    case LaundryHandler => "LAUNDRY-"
    case ProductHandler => "PRODUCT-"
  }

  /** The `startswith` chain. */
  function HandlerFor(txRef: string): (h: Option<Handler>)
    ensures h.Some? ==> StartsWith(txRef, PrefixOf(h.value))
  {
    if StartsWith(txRef, "DELIVERY-") then Some(DeliveryHandler)
    else if StartsWith(txRef, "FOOD-") then Some(FoodHandler)
    else if StartsWith(txRef, "TOPUP-") then Some(TopUpHandler)
    else if StartsWith(txRef, "LAUNDRY-") then Some(LaundryHandler)
    else if StartsWith(txRef, "PRODUCT-") then Some(ProductHandler)
    else None
  }

  /** No tx_ref carries two of the prefixes: their first letters differ. */
  lemma PrefixesExclusive(txRef: string, g: Handler, h: Handler)
    requires StartsWith(txRef, PrefixOf(g)) && StartsWith(txRef, PrefixOf(h))
    ensures g == h
  {
    assert txRef[0] == PrefixOf(g)[0];
    assert txRef[0] == PrefixOf(h)[0];
  }

  /** The chain picks handler `h` exactly when the tx_ref starts with `h`'s prefix, and picks
      nothing when it starts with none of them. */
  lemma HandlerForMatchesPrefix(txRef: string, h: Handler)
    ensures HandlerFor(txRef) == Some(h) <==> StartsWith(txRef, PrefixOf(h))
    ensures HandlerFor(txRef).None? <==> forall g: Handler :: !StartsWith(txRef, PrefixOf(g))
  {
    if StartsWith(txRef, PrefixOf(h)) {
      assert HandlerFor(txRef).Some? by {
        match h
        case DeliveryHandler =>
        case FoodHandler =>
        case TopUpHandler =>
        case LaundryHandler =>
        case ProductHandler =>
      }
      PrefixesExclusive(txRef, HandlerFor(txRef).value, h);
    }
    if HandlerFor(txRef).Some? {
      assert StartsWith(txRef, PrefixOf(HandlerFor(txRef).value));
    }
  }

  /** `data.get(key) or payload.get(key)`, then `str(...)`. */
  function FlwRefOf(d: EventData, top: EventData): string {
    if d.flwRef.Some? && d.flwRef.value != "" then d.flwRef.value
    else if top.flwRef.Some? then top.flwRef.value
    else "None"
  }

  /** The route's decision: its reply and the job it enqueues, if any. `ledger` is the
      transactions table the idempotency lookup reads. */
  function WebhookDecision(secret: string, signature: Option<string>, body: Option<Payload>, ledger: seq<Transaction>): (r: (WebhookReply, Option<Job>))
    ensures r.1.Some? ==>
      signature == Some(secret) && body.Some? && r.0 == Queued(r.1.value.txRef) &&
      !HasTxRef(ledger, r.1.value.txRef) && StartsWith(r.1.value.txRef, PrefixOf(r.1.value.handler)) &&
      r.1.value.retry == PaymentRetry
  {
    if signature.None? then (SignatureHeaderMissing, None)
    else if signature.value != secret then (InvalidSignature, None)
    else if body.None? then (InvalidJson, None)
    else
      var d := body.value.data.GetOr(body.value.top);
      if d.status != Some("successful") then (Ignored(d.status), None)
      else if d.txRef.None? || d.txRef.value == "" then (MissingTxRef, None)
      else
        var txRef := d.txRef.value;
        if HasTxRef(ledger, txRef) then (AlreadyProcessed(txRef), None)
        else match HandlerFor(txRef)
          case None => (UnknownTransactionType, None)
          case Some(h) => (Queued(txRef), Some(Job(h, txRef, d.amount, FlwRefOf(d, body.value.top), "CARD", PaymentRetry)))
  }

  /** The webhook as the server runs it: the decision, then at most one enqueue. */
  method FlutterwaveWebhook(db: Database, queue: JobQueue, secret: string, signature: Option<string>, body: Option<Payload>)
    returns (reply: WebhookReply)
    modifies queue
    ensures var (rep, job) := WebhookDecision(secret, signature, body, db.transactions);
      reply == rep && queue.messages == old(queue.messages) &&
      queue.jobs == old(queue.jobs) + (if job.Some? then [job.value] else [])
  {
    if signature.None? {
      return SignatureHeaderMissing;
    }
    if signature.value != secret {
      return InvalidSignature;
    }
    if body.None? {
      return InvalidJson;
    }
    var d := body.value.data.GetOr(body.value.top);
    if d.status != Some("successful") {
      return Ignored(d.status);
    }
    if d.txRef.None? || d.txRef.value == "" {
      return MissingTxRef;
    }
    var txRef := d.txRef.value;
    var existing := db.TransactionExists(txRef);
    if existing {
      return AlreadyProcessed(txRef);
    }
    var handler := HandlerFor(txRef);
    if handler.None? {
      return UnknownTransactionType;
    }
    queue.Enqueue(Job(handler.value, txRef, d.amount, FlwRefOf(d, body.value.top), "CARD", PaymentRetry));
    reply := Queued(txRef);
  }

  /** A job is enqueued exactly when every gate passes: the signature matches, the body parses,
      the charge succeeded, the tx_ref is present, new to the ledger and carries a known prefix.
      The job then runs the prefix's handler on that tx_ref with the fixed retry schedule. */
  lemma JobOnlyAfterAllGates(secret: string, signature: Option<string>, body: Option<Payload>, ledger: seq<Transaction>)
    ensures var (reply, job) := WebhookDecision(secret, signature, body, ledger);
      job.Some? <==>
        signature == Some(secret) && body.Some? &&
        var d := body.value.data.GetOr(body.value.top);
        d.status == Some("successful") && d.txRef.Some? && d.txRef.value != "" &&
        !HasTxRef(ledger, d.txRef.value) && HandlerFor(d.txRef.value).Some?
    ensures var (reply, job) := WebhookDecision(secret, signature, body, ledger);
      job.Some? ==>
        var d := body.value.data.GetOr(body.value.top);
        reply == Queued(d.txRef.value) && job.value.txRef == d.txRef.value &&
        StartsWith(d.txRef.value, PrefixOf(job.value.handler)) && job.value.retry == PaymentRetry &&
        job.value.paidAmount == d.amount
  {
    var (reply, job) := WebhookDecision(secret, signature, body, ledger);
    if job.Some? {
      var d := body.value.data.GetOr(body.value.top);
      HandlerForMatchesPrefix(d.txRef.value, job.value.handler);
    }
  }

  /** A wrong signature is refused before the body is looked at; a non-successful event, a
      missing tx_ref, a tx_ref already in the ledger and an unknown prefix each end the request
      with nothing enqueued. */
  lemma GateReplies(secret: string, signature: Option<string>, body: Option<Payload>, ledger: seq<Transaction>)
    ensures signature.Some? && signature.value != secret ==> WebhookDecision(secret, signature, body, ledger) == (InvalidSignature, None)
    ensures signature == Some(secret) && body.Some? && body.value.data.GetOr(body.value.top).status != Some("successful") ==>
      WebhookDecision(secret, signature, body, ledger) == (Ignored(body.value.data.GetOr(body.value.top).status), None)
    ensures signature == Some(secret) && body.Some? ==>
      var d := body.value.data.GetOr(body.value.top);
      d.status == Some("successful") && d.txRef.Some? && d.txRef.value != "" && HasTxRef(ledger, d.txRef.value) ==>
      WebhookDecision(secret, signature, body, ledger) == (AlreadyProcessed(d.txRef.value), None)
  {
  }
}
