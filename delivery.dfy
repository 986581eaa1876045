/** Package delivery: the fee and tx_ref built when a sender initiates payment, the status
    state machine (`_validate_state_transition`), the role matrix (`_validate_authorization`)
    and the entry point `update_delivery_status`, which checks both before it dispatches to a
    status handler. The handlers either write the status column or call a stored procedure
    whose body is not part of this model; such calls are recorded, never interpreted. */
module Delivery {
  import opened Wrappers
  import opened Store
  import opened Money
  import opened Refs

  datatype DeliveryStatus =
    Pending | Assigned | Accepted | Declined | PickedUp | InTransit | Delivered | Completed | Cancelled
  {
    function Name(): string {
      match this
      case Pending => "PENDING"
      case Assigned => "ASSIGNED"
      case Accepted => "ACCEPTED"
      case Declined => "DECLINED"
      case PickedUp => "PICKED_UP"
      case InTransit => "IN_TRANSIT"
      case Delivered => "DELIVERED"
      case Completed => "COMPLETED"
      case Cancelled => "CANCELLED"
    }
  }

  datatype DeliveryError =
    | ChargesMissing
    | NotFound
    | Forbidden(target: DeliveryStatus)
    | IllegalTransition(current: string, requested: string)
    | RiderRequired
    | InvalidStatus(target: DeliveryStatus)
    | HandlerCallFailed(target: DeliveryStatus)

  // ---------------------------------------------------------------------------
  // Initiation
  // ---------------------------------------------------------------------------

  /** `round(base + per_km * distance, 2)`. */
  function DeliveryFee(baseFee: real, perKm: real, distance: real): (fee: real)
    ensures -0.005 <= fee - (baseFee + perKm * distance) <= 0.005
  {
    Quantize2(baseFee + perKm * distance)
  }

  /** The fee for a 5 km trip at 1000 base and 200 per km is 2000.00. */
  lemma DeliveryFeeExample()
    ensures DeliveryFee(1000.0, 200.0, 5.0) == 2000.0
  {
    CentsOfWholeKobo(200000);
    assert 1000.0 + 200.0 * 5.0 == 200000 as real / 100.0;
  }

  function DeliveryTxRef(hex: string): string {
    GeneratedRef("DELIVERY-", hex, 32)
  }

  /** The keys of the pending record `initiate_delivery_payment` saves as written: neither
      `delivery_fee` nor `amount_due_dispatch` is among them. */
  const PendingRecordKeysAsWritten: set<string> := {"sender_id", "delivery_data", "distance", "tx_ref", "created_at"}

  /** `initiate_delivery_payment` over the Redis cache. The pending record carries the fee it
      quoted and no dispatch share (see README: the record as written has neither). */
  method InitiateDeliveryPayment(charges: Option<ChargesRow>, sender: UserId, distance: real, hex: string,
                                 cache: PendingCache)
    returns (r: Result<PaymentInit, DeliveryError>)
    modifies cache
    ensures charges.None? ==> r == Failure(ChargesMissing) && cache.pending == old(cache.pending)
    ensures charges.Some? ==>
      var fee := DeliveryFee(charges.value.baseDeliveryFee, charges.value.deliveryFeePerKm, distance);
      r == Success(PaymentInit(DeliveryTxRef(hex), fee)) &&
      cache.pending == old(cache.pending)[PendingKey("delivery", DeliveryTxRef(hex)) := DeliveryIntent(sender, fee, None)]
  {
    if charges.None? {
      return Failure(ChargesMissing);
    }
    var row := charges.value;
    var fee := DeliveryFee(row.baseDeliveryFee, row.deliveryFeePerKm, distance);
    var txRef := DeliveryTxRef(hex);
    cache.Save(PendingKey("delivery", txRef), DeliveryIntent(sender, fee, None));
    r := Success(PaymentInit(txRef, fee));
  }

  // ---------------------------------------------------------------------------
  // State machine
  // ---------------------------------------------------------------------------

  /** `ALLOWED_TRANSITIONS.get(current, [])`, keyed by the status column's text. */
  function AllowedTransitions(current: string): (r: seq<string>)
    ensures forall next :: next in r ==> next != current && next != "PENDING"
  {
    if current == "PENDING" then ["ASSIGNED", "CANCELLED"]
    else if current == "ASSIGNED" then ["ACCEPTED", "DECLINED", "CANCELLED"]
    else if current == "DECLINED" then ["ASSIGNED"]
    else if current == "ACCEPTED" then ["PICKED_UP", "CANCELLED"]
    else if current == "PICKED_UP" then ["IN_TRANSIT", "DELIVERED", "CANCELLED"]
    else if current == "IN_TRANSIT" then ["DELIVERED", "CANCELLED"]
    else if current == "DELIVERED" then ["COMPLETED", "CANCELLED"]
    else if current == "COMPLETED" then []
    else if current == "CANCELLED" then []
    else []
  }

  function ValidateStateTransition(current: string, target: string): (o: Outcome<DeliveryError>)
    ensures o.Pass? <==> target in AllowedTransitions(current)
    ensures o.Fail? ==> o.error == IllegalTransition(current, target)
  {
    if target in AllowedTransitions(current) then Pass else Fail(IllegalTransition(current, target))
  }

  /** The state machine read by target: which states may move into `to`. Written
      independently of the table above. */
  predicate MayEnter(from: DeliveryStatus, to: DeliveryStatus) {
    match to
    case Pending => false
    case Assigned => from == Pending || from == Declined
    case Accepted => from == Assigned
    case Declined => from == Assigned
    case PickedUp => from == Accepted
    case InTransit => from == PickedUp
    case Delivered => from == PickedUp || from == InTransit
    case Completed => from == Delivered
    case Cancelled => from !in {Declined, Completed, Cancelled}
  }

  /** A transition between two named statuses is accepted exactly when the state machine allows it. */
  lemma TransitionTableMatchesMachine(from: DeliveryStatus, to: DeliveryStatus)
    ensures ValidateStateTransition(from.Name(), to.Name()).Pass? <==> MayEnter(from, to)
  {
  }

  /** A status the table does not list, such as PAID_NEEDS_RIDER, allows no transition at all. */
  lemma UnlistedStatusAllowsNothing(current: string, target: string)
    requires forall s: DeliveryStatus :: s.Name() != current
    ensures ValidateStateTransition(current, target).Fail?
  {
    assert Pending.Name() != current && Assigned.Name() != current && Accepted.Name() != current;
    assert Declined.Name() != current && PickedUp.Name() != current && InTransit.Name() != current;
    assert Delivered.Name() != current && Completed.Name() != current && Cancelled.Name() != current;
  }

  /** What delivery payment writes into a new order is not in the table. */
  lemma PaidNeedsRiderIsStuck(target: string)
    ensures ValidateStateTransition("PAID_NEEDS_RIDER", target).Fail?
  {
    UnlistedStatusAllowsNothing("PAID_NEEDS_RIDER", target);
  }

  /** COMPLETED and CANCELLED are terminal. */
  lemma TerminalStates(target: string)
    ensures ValidateStateTransition("COMPLETED", target).Fail?
    ensures ValidateStateTransition("CANCELLED", target).Fail?
  {
  }

  /** DECLINED leads only back to ASSIGNED; COMPLETED is entered only from DELIVERED;
      CANCELLED is entered from every non-terminal state except DECLINED. */
  lemma ReachabilityFacts(s: DeliveryStatus)
    ensures ValidateStateTransition("DECLINED", s.Name()).Pass? <==> s == Assigned
    ensures ValidateStateTransition(s.Name(), "COMPLETED").Pass? <==> s == Delivered
    ensures ValidateStateTransition(s.Name(), "CANCELLED").Pass? <==> s in {Pending, Assigned, Accepted, PickedUp, InTransit, Delivered}
  {
  }

  // ---------------------------------------------------------------------------
  // Authorization matrix
  // ---------------------------------------------------------------------------

  /** `not rider_id`, for a rider column normalised by `rider_id or None`. */
  predicate NoRider(rider: Option<UserId>) {
    rider.None? || rider.value == ""
  }

  function ValidateAuthorization(target: DeliveryStatus, actor: UserId, sender: UserId, rider: Option<UserId>): (o: Outcome<DeliveryError>)
    ensures o.Fail? ==> o.error == Forbidden(target)
    ensures o.Pass? ==> target == Pending || actor == sender || (rider.Some? && rider.value == actor)
  {
    match target
    case Assigned => if actor != sender then Fail(Forbidden(target)) else Pass
    case Accepted => if NoRider(rider) || actor != rider.value then Fail(Forbidden(target)) else Pass
    case PickedUp => if NoRider(rider) || actor != rider.value then Fail(Forbidden(target)) else Pass
    case InTransit => if NoRider(rider) || actor != rider.value then Fail(Forbidden(target)) else Pass
    case Delivered => if NoRider(rider) || actor != rider.value then Fail(Forbidden(target)) else Pass
    case Completed => if actor != sender then Fail(Forbidden(target)) else Pass
    case Cancelled => if actor != sender && rider != Some(actor) then Fail(Forbidden(target)) else Pass
    case Declined => if NoRider(rider) || actor != rider.value then Fail(Forbidden(target)) else Pass
    // the source's if/elif chain has no branch for PENDING, so it is not restricted
    case Pending => Pass
  }

  /** The roles a status may be set by. */
  predicate SenderMaySet(s: DeliveryStatus) { s in {Assigned, Completed, Cancelled} }
  predicate RiderMaySet(s: DeliveryStatus) { s in {Accepted, PickedUp, InTransit, Delivered, Declined, Cancelled} }

  /** The authorization check grants exactly what the role table grants: the sender its
      statuses, the assigned rider its statuses, and anyone a status outside both lists. */
  lemma AuthorizationMatchesRoles(target: DeliveryStatus, actor: UserId, sender: UserId, rider: Option<UserId>)
    requires rider != Some("")
    ensures ValidateAuthorization(target, actor, sender, rider).Pass? <==>
      (SenderMaySet(target) && actor == sender) ||
      (RiderMaySet(target) && rider == Some(actor)) ||
      (!SenderMaySet(target) && !RiderMaySet(target))
  {
  }

  /** CANCELLED is the only status both roles may set; without a rider only the sender's
      statuses (and the unrestricted PENDING) can pass. */
  lemma RoleFacts(target: DeliveryStatus, actor: UserId, sender: UserId)
    ensures SenderMaySet(target) && RiderMaySet(target) <==> target == Cancelled
    ensures ValidateAuthorization(target, actor, sender, None).Pass? <==>
      target == Pending || (SenderMaySet(target) && actor == sender)
  {
  }

  // ---------------------------------------------------------------------------
  // Status updates
  // ---------------------------------------------------------------------------

  /** A call of one of the delivery stored procedures, recorded with its arguments. */
  datatype RpcCall =
    | AssignRiderToDelivery(txRef: string, riderId: UserId)
    | MarkPickedUp(deliveryId: RowId, riderId: UserId)
    | MarkCompleted(deliveryId: RowId, senderId: UserId)
    | MarkCancelled(deliveryId: RowId, triggeredBy: UserId, reason: Option<string>)
    | ClearRiderAssignment(deliveryId: RowId)

  /** What a successful status update did: wrote the status column, or called a procedure. */
  datatype Dispatch = StatusWritten(status: string) | ProcedureCalled(call: RpcCall)

  datatype StatusUpdate = StatusUpdate(target: DeliveryStatus, riderId: Option<UserId>, reason: Option<string>)

  /** The handler each target status is routed to, once both checks passed. */
  function Route(id: RowId, txRef: string, target: DeliveryStatus, req: StatusUpdate, actor: UserId): (r: Result<Dispatch, DeliveryError>)
    ensures r.Failure? <==> target == Pending || (target == Assigned && (req.riderId.None? || req.riderId.value == ""))
    ensures r.Success? && r.value.StatusWritten? ==> r.value.status == target.Name()
  {
    match target
    case Assigned =>
      if req.riderId.None? || req.riderId.value == "" then Failure(RiderRequired)
      else Success(ProcedureCalled(AssignRiderToDelivery(txRef, req.riderId.value)))
    case Accepted => Success(StatusWritten("ACCEPTED"))
    case PickedUp => Success(ProcedureCalled(MarkPickedUp(id, actor)))
    case InTransit => Success(StatusWritten("IN_TRANSIT"))
    case Delivered => Success(StatusWritten("DELIVERED"))
    case Completed => Success(ProcedureCalled(MarkCompleted(id, actor)))
    case Cancelled => Success(ProcedureCalled(MarkCancelled(id, actor, req.reason)))
    case Declined => Success(ProcedureCalled(ClearRiderAssignment(id)))
    case Pending => Failure(InvalidStatus(target))
  }

  /** The decision `update_delivery_status` takes for a fetched row: authorization first, then
      the transition, then the route. */
  function Decide(id: RowId, txRef: string, sender: UserId, rider: Option<UserId>, current: string,
                  req: StatusUpdate, actor: UserId): (r: Result<Dispatch, DeliveryError>)
    ensures r.Success? && r.value.StatusWritten? ==>
      r.value.status == req.target.Name() && r.value.status in AllowedTransitions(current)
  {
    var riderOrNone := if rider == Some("") then None else rider;
    match ValidateAuthorization(req.target, actor, sender, riderOrNone)
    case Fail(e) => Failure(e)
    case Pass =>
      match ValidateStateTransition(current, req.target.Name())
      case Fail(e) => Failure(e)
      case Pass => Route(id, txRef, req.target, req, actor)
  }

  /** Nothing is dispatched unless the actor is authorized and the transition is legal; an
      unauthorized actor is refused whatever the state. */
  lemma ChecksPrecedeDispatch(id: RowId, txRef: string, sender: UserId, rider: Option<UserId>, current: string,
                              req: StatusUpdate, actor: UserId)
    ensures Decide(id, txRef, sender, rider, current, req, actor).Success? ==>
      ValidateAuthorization(req.target, actor, sender, if rider == Some("") then None else rider).Pass? &&
      req.target.Name() in AllowedTransitions(current)
    ensures ValidateAuthorization(req.target, actor, sender, if rider == Some("") then None else rider).Fail? ==>
      Decide(id, txRef, sender, rider, current, req, actor) == Failure(Forbidden(req.target))
  {
  }

  /** PENDING never reaches its handler's "invalid status" branch: no state may enter PENDING. */
  lemma PendingTargetIsIllegal(id: RowId, txRef: string, sender: UserId, rider: Option<UserId>, current: string,
                               req: StatusUpdate, actor: UserId)
    requires req.target == Pending
    ensures Decide(id, txRef, sender, rider, current, req, actor) == Failure(IllegalTransition(current, "PENDING"))
  {
  }

  // ---------------------------------------------------------------------------
  // The dispatch as the source has it
  // ---------------------------------------------------------------------------

  /** The four targets whose handler `update_delivery_status` calls with one argument more than
      the handler declares (`assign_rider`, `pickup_delivery`, `mark_in_transit`, `mark_delivered`). */
  predicate CalledWithExtraArgument(target: DeliveryStatus) {
    target in {Assigned, PickedUp, InTransit, Delivered}
  }

  /** The decision as written: once both checks pass, the call of one of those four handlers
      raises TypeError, which the blanket `except` answers with a 500 before any write. */
  function DecideAsWritten(id: RowId, txRef: string, sender: UserId, rider: Option<UserId>, current: string,
                           req: StatusUpdate, actor: UserId): Result<Dispatch, DeliveryError> {
    var riderOrNone := if rider == Some("") then None else rider;
    match ValidateAuthorization(req.target, actor, sender, riderOrNone)
    case Fail(e) => Failure(e)
    case Pass =>
      match ValidateStateTransition(current, req.target.Name())
      case Fail(e) => Failure(e)
      case Pass =>
        if CalledWithExtraArgument(req.target) then Failure(HandlerCallFailed(req.target))
        else Route(id, txRef, req.target, req, actor)
  }

  /** As written, ASSIGNED, PICKED_UP, IN_TRANSIT and DELIVERED never succeed: every request
      the intended dispatch would carry out fails instead, so no rider is ever assigned and no
      delivery is ever marked DELIVERED (the only way into COMPLETED). A sender assigning a
      rider to a PENDING delivery shows it. `Decide` is the intended dispatch the model uses. */
  lemma ExtraArgumentsFailAsWritten(id: RowId, txRef: string, sender: UserId, rider: Option<UserId>, current: string,
                                    req: StatusUpdate, actor: UserId)
    ensures CalledWithExtraArgument(req.target) ==> DecideAsWritten(id, txRef, sender, rider, current, req, actor).Failure?
    ensures CalledWithExtraArgument(req.target) && Decide(id, txRef, sender, rider, current, req, actor).Success? ==>
      DecideAsWritten(id, txRef, sender, rider, current, req, actor) == Failure(HandlerCallFailed(req.target))
    ensures !CalledWithExtraArgument(req.target) ==>
      DecideAsWritten(id, txRef, sender, rider, current, req, actor) == Decide(id, txRef, sender, rider, current, req, actor)
    ensures req == StatusUpdate(Assigned, Some("rider-1"), None) && current == "PENDING" && actor == sender ==>
      Decide(id, txRef, sender, rider, current, req, actor) == Success(ProcedureCalled(AssignRiderToDelivery(txRef, "rider-1"))) &&
      DecideAsWritten(id, txRef, sender, rider, current, req, actor) == Failure(HandlerCallFailed(Assigned))
  {
  }

  /** A row of delivery_orders as the status update uses it; `procedures` records the calls of
      stored procedures made on its behalf. */
  class DeliveryOrder {
    const id: RowId
    const txRef: string
    const sender: UserId
    var rider: Option<UserId>
    var status: string
    var procedures: seq<RpcCall>

    constructor (id: RowId, txRef: string, sender: UserId, rider: Option<UserId>, status: string)
      ensures this.id == id && this.txRef == txRef && this.sender == sender
      ensures this.rider == rider && this.status == status && procedures == []
    {
      this.id, this.txRef, this.sender := id, txRef, sender;
      this.rider, this.status, procedures := rider, status, [];
    }

    /** The row-level part of `update_delivery_status`. A rejection leaves the row untouched;
        a handler that updates the table sets the status; a handler that calls a procedure
        appends that call and leaves the columns to the procedure. */
    method UpdateStatus(req: StatusUpdate, actor: UserId) returns (r: Result<Dispatch, DeliveryError>)
      modifies this
      ensures r == Decide(id, txRef, sender, old(rider), old(status), req, actor)
      ensures r.Failure? ==> status == old(status) && procedures == old(procedures)
      ensures r.Success? && r.value.StatusWritten? ==> status == r.value.status && procedures == old(procedures)
      ensures r.Success? && r.value.ProcedureCalled? ==> status == old(status) && procedures == old(procedures) + [r.value.call]
      ensures rider == old(rider)
    {
      var riderOrNone := if rider == Some("") then None else rider;
      var auth := ValidateAuthorization(req.target, actor, sender, riderOrNone);
      if auth.Fail? {
        return Failure(auth.error);
      }
      var legal := ValidateStateTransition(status, req.target.Name());
      if legal.Fail? {
        return Failure(legal.error);
      }
      if req.target == Assigned {
        if req.riderId.None? || req.riderId.value == "" {
          return Failure(RiderRequired);
        }
        var call := AssignRiderToDelivery(txRef, req.riderId.value);
        procedures := procedures + [call];
        r := Success(ProcedureCalled(call));
      } else if req.target == Accepted {
        status := "ACCEPTED";
        r := Success(StatusWritten("ACCEPTED"));
      } else if req.target == PickedUp {
        var call := MarkPickedUp(id, actor);
        procedures := procedures + [call];
        r := Success(ProcedureCalled(call));
      } else if req.target == InTransit {
        status := "IN_TRANSIT";
        r := Success(StatusWritten("IN_TRANSIT"));
      } else if req.target == Delivered {
        status := "DELIVERED";
        r := Success(StatusWritten("DELIVERED"));
      } else if req.target == Completed {
        var call := MarkCompleted(id, actor);
        procedures := procedures + [call];
        r := Success(ProcedureCalled(call));
      } else if req.target == Cancelled {
        var call := MarkCancelled(id, actor, req.reason);
        procedures := procedures + [call];
        r := Success(ProcedureCalled(call));
      } else if req.target == Declined {
        var call := ClearRiderAssignment(id);
        procedures := procedures + [call];
        r := Success(ProcedureCalled(call));
      } else {
        r := Failure(InvalidStatus(req.target));
      }
    }
  }

  /** `update_delivery_status`: `_get_delivery` by tx_ref (404 when absent), then the row update. */
  method UpdateDeliveryStatus(deliveries: map<string, DeliveryOrder>, txRef: string, req: StatusUpdate, actor: UserId)
    returns (r: Result<Dispatch, DeliveryError>)
    modifies set d | d in deliveries.Values
    ensures txRef !in deliveries ==> r == Failure(NotFound)
    ensures txRef in deliveries ==>
      var d := deliveries[txRef];
      r == Decide(d.id, d.txRef, d.sender, old(d.rider), old(d.status), req, actor)
    ensures txRef in deliveries ==>
      var d := deliveries[txRef];
      (r.Failure? ==> d.status == old(d.status) && d.procedures == old(d.procedures)) &&
      (r.Success? && r.value.StatusWritten? ==> d.status == r.value.status && d.procedures == old(d.procedures)) &&
      (r.Success? && r.value.ProcedureCalled? ==> d.status == old(d.status) && d.procedures == old(d.procedures) + [r.value.call])
    ensures forall d :: d in deliveries.Values && (txRef !in deliveries || d != deliveries[txRef]) ==>
      d.status == old(d.status) && d.procedures == old(d.procedures)
    ensures forall d :: d in deliveries.Values ==> d.rider == old(d.rider)
  {
    if txRef !in deliveries {
      return Failure(NotFound);
    }
    var d := deliveries[txRef];
    r := d.UpdateStatus(req, actor);
  }
}
