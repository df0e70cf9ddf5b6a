/** The escrow ledger of src/routes/payments.ts: payment initiation with its 15%
    platform fee, the provider webhook that moves escrow to held, the status read
    for either party, and the traveler's payout request. The payment provider's
    answers are inputs (`providerOk`, `verification`); the payment row is
    written before the provider is asked, so it stays even when the provider fails. */
module PaymentRoutes {
  import opened Types
  import opened Tables
  import opened Store

  /** The platform fee and the traveler's payout for a total: the fee is 15%, the
      payout the remaining 85%, and together they make up the total. */
  function FeeSplit(total: real): (split: (real, real))
    ensures split.0 == total * 0.15
    ensures split.1 == total * 0.85
    ensures split.0 + split.1 == total
    ensures total >= 0.0 ==> 0.0 <= split.0 <= split.1
  {
    var fee := total * 0.15;
    (fee, total - fee)
  }

  /** The row initiation inserts for a matched request: paid by the caller, owed to
      the request's matched traveler, for the offered amount, with both escrow and
      payout pending. */
  function NewPayment(id: Id, r: DeliveryRequest, senderId: Id, paymentMethod: string, txRef: string)
    : (p: Payment)
    ensures SplitHolds(p)
    ensures p.deliveryRequestId == r.id && p.travelerId == r.matchedTravelerId
    ensures p.totalAmount == r.offeredAmount && p.travelerPayout == r.offeredAmount * 0.85
    ensures p.escrowStatus.Pending? && p.payoutStatus.Pending?
  {
    var split := FeeSplit(r.offeredAmount);
    Payment(id, r.id, senderId, r.matchedTravelerId, r.offeredAmount, split.0, split.1, paymentMethod,
            EscrowStatus.Pending, PayoutStatus.Pending, txRef, None, None)
  }

  /** Initiation's answer before the provider is asked: 404 unless the caller sends
      the request, 400 unless it is matched, 400 when it already has a payment. */
  function InitiateVerdict(rs: seq<DeliveryRequest>, ps: seq<Payment>, callerId: Id, requestId: Id)
    : (reply: Reply)
    ensures reply == Ok <==>
              && Lookup(rs, RequestKey, requestId).Some?
              && Lookup(rs, RequestKey, requestId).value.senderId == callerId
              && Lookup(rs, RequestKey, requestId).value.status.Matched?
              && forall i :: 0 <= i < |ps| ==> ps[i].deliveryRequestId != requestId
    ensures reply == NotFound <==>
              Lookup(rs, RequestKey, requestId).None? || Lookup(rs, RequestKey, requestId).value.senderId != callerId
    ensures reply == Ok || reply == NotFound || reply == BadRequest
  {
    match Lookup(rs, RequestKey, requestId)
    case None => NotFound
    case Some(r) =>
      if r.senderId != callerId then NotFound
      else if !r.status.Matched? then BadRequest
      else if Lookup(ps, PaymentRequestKey, requestId).Some? then BadRequest
      else Ok
  }

  /** POST /payments/initiate: once the guards pass, exactly one pending payment is
      appended, and the reply is 200 or 500 as the provider answers; the payment is
      kept either way. A request never gets a second payment. */
  method Initiate(db: Database, caller: User, requestId: Id, paymentMethod: string,
                  paymentId: Id, txRef: string, providerOk: bool)
    returns (reply: Reply)
    requires db.Valid()
    requires Lookup(db.payments, PaymentKey, paymentId).None?
    modifies db`payments
    ensures db.Valid()
    ensures var v := InitiateVerdict(old(db.requests), old(db.payments), caller.id, requestId);
            reply == (if v != Ok then v else if providerOk then Ok else ServerError)
    ensures InitiateVerdict(old(db.requests), old(db.payments), caller.id, requestId) != Ok ==>
              db.payments == old(db.payments)
    ensures InitiateVerdict(old(db.requests), old(db.payments), caller.id, requestId) == Ok ==>
              db.payments == old(db.payments) +
                [NewPayment(paymentId, Lookup(old(db.requests), RequestKey, requestId).value, caller.id,
                            paymentMethod, txRef)]
  {
    var v := InitiateVerdict(db.requests, db.payments, caller.id, requestId);
    if v != Ok {
      return v;
    }
    var p := NewPayment(paymentId, Lookup(db.requests, RequestKey, requestId).value, caller.id, paymentMethod, txRef);
    InsertFresh(db.payments, PaymentKey, p);
    InsertFresh(db.payments, PaymentRequestKey, p);
    db.payments := db.payments + [p];
    reply := if providerOk then Ok else ServerError;
  }

  /** Holding the escrow of a confirmed charge: every payment with the transaction
      reference is held and records
      the provider's transaction id, whatever its escrow status was. */
  function MarkHeld(ps: seq<Payment>, txRef: string, providerTxId: string): (r: seq<Payment>)
    ensures |r| == |ps|
    ensures forall i :: 0 <= i < |ps| ==>
              r[i] == if ps[i].txRef == txRef
                      then ps[i].(escrowStatus := Held, providerPaymentId := Some(providerTxId))
                      else ps[i]
    ensures SameLedger(ps, r)
  {
    seq(|ps|, i requires 0 <= i < |ps| =>
      if ps[i].txRef == txRef then ps[i].(escrowStatus := Held, providerPaymentId := Some(providerTxId)) else ps[i])
  }

  /** A callback that reports a completed, successful charge: only such a callback
      makes the webhook ask the provider to verify the transaction. */
  predicate CompletedCharge(event: string, chargeStatus: string) {
    event == "charge.completed" && chargeStatus == "successful"
  }

  /** The webhook acts only on a completed, successful charge that the provider
      itself confirms when asked about the transaction. `verification` is the
      provider's answer: None when the call throws or its body is not JSON. */
  predicate ChargeConfirmed(event: string, chargeStatus: string, verification: Option<bool>) {
    CompletedCharge(event, chargeStatus) && verification == Some(true)
  }

  /** POST /payments/webhook/flutterwave: answers 200, except 500 when the
      verification call it makes for a completed charge throws, since that call has
      no error handling; the payments carrying the reference are marked held only
      when the charge is confirmed, and otherwise nothing changes. No signature is
      checked. */
  method Webhook(db: Database, event: string, chargeStatus: string, txRef: string, providerTxId: string,
                 verification: Option<bool>)
    returns (reply: Reply)
    requires db.Valid()
    modifies db`payments
    ensures db.Valid()
    ensures reply == (if CompletedCharge(event, chargeStatus) && verification.None? then ServerError else Ok)
    ensures ChargeConfirmed(event, chargeStatus, verification) ==>
              db.payments == MarkHeld(old(db.payments), txRef, providerTxId)
    ensures !ChargeConfirmed(event, chargeStatus, verification) ==> db.payments == old(db.payments)
  {
    if CompletedCharge(event, chargeStatus) && verification.None? {
      return ServerError;
    }
    if ChargeConfirmed(event, chargeStatus, verification) {
      SameLedgerKeepsInvariants(db.payments, MarkHeld(db.payments, txRef, providerTxId));
      db.payments := MarkHeld(db.payments, txRef, providerTxId);
    }
    reply := Ok;
  }

  /** Either party of a payment: its sender or its traveler. */
  predicate PartyTo(p: Payment, userId: Id) {
    p.senderId == userId || p.travelerId == Some(userId)
  }

  /** GET /payments/:id/status: the payment with its request's status, for its
      sender or its traveler only; 404 for anyone else, for an unknown payment and
      for a payment whose request is gone. */
  function PaymentStatus(ps: seq<Payment>, rs: seq<DeliveryRequest>, callerId: Id, paymentId: Id)
    : (r: Result<(Payment, RequestStatus)>)
    ensures r.Success? <==>
              && Lookup(ps, PaymentKey, paymentId).Some?
              && PartyTo(Lookup(ps, PaymentKey, paymentId).value, callerId)
              && Lookup(rs, RequestKey, Lookup(ps, PaymentKey, paymentId).value.deliveryRequestId).Some?
    ensures r.Success? ==> r.value.0 in ps && r.value.0.id == paymentId && PartyTo(r.value.0, callerId)
    ensures r.Success? ==> exists q :: q in rs && q.id == r.value.0.deliveryRequestId && q.status == r.value.1
    ensures r.Failure? ==> r.reply == NotFound
  {
    match Lookup(ps, PaymentKey, paymentId)
    case None => Failure(NotFound)
    case Some(p) =>
      if !PartyTo(p, callerId) then Failure(NotFound)
      else
        match Lookup(rs, RequestKey, p.deliveryRequestId)
        case None => Failure(NotFound)
        case Some(q) => Success((p, q.status))
  }

  /** Payout's answer before the provider is asked: 404 unless the caller is the
      payment's traveler, 400 until escrow is released, 400 once the payout completed. */
  function PayoutVerdict(ps: seq<Payment>, callerId: Id, paymentId: Id): (reply: Reply)
    ensures reply == Ok <==>
              && Lookup(ps, PaymentKey, paymentId).Some?
              && Lookup(ps, PaymentKey, paymentId).value.travelerId == Some(callerId)
              && Lookup(ps, PaymentKey, paymentId).value.escrowStatus.Released?
              && !Lookup(ps, PaymentKey, paymentId).value.payoutStatus.Completed?
    ensures reply == NotFound <==>
              Lookup(ps, PaymentKey, paymentId).None?
              || Lookup(ps, PaymentKey, paymentId).value.travelerId != Some(callerId)
    ensures reply == Ok || reply == NotFound || reply == BadRequest
  {
    match Lookup(ps, PaymentKey, paymentId)
    case None => NotFound
    case Some(p) =>
      if p.travelerId != Some(callerId) then NotFound
      else if !p.escrowStatus.Released? then BadRequest
      else if p.payoutStatus.Completed? then BadRequest
      else Ok
  }

  /** Moving one payment's payout forward, by its id, leaves the ledger as it was. */
  lemma StartPayoutKeepsLedger(ps: seq<Payment>, p: Payment, transferId: string)
    requires UniqueKeys(ps, PaymentKey)
    requires p in ps
    ensures SameLedger(ps, Replace(ps, PaymentKey, p.(payoutStatus := Processing, providerPayoutId := Some(transferId))))
  {
    var p' := p.(payoutStatus := Processing, providerPayoutId := Some(transferId));
    var j :| 0 <= j < |ps| && ps[j] == p;
    forall i | 0 <= i < |ps| && ps[i].id == p'.id ensures ps[i] == p {
      assert PaymentKey(ps[i]) == PaymentKey(ps[j]);
    }
  }

  /** POST /payments/payout/:id: once the guards pass, a provider that accepts the
      transfer moves the payout to processing and records the provider's transfer
      id (200), and a provider that refuses changes nothing (500). A payout that is
      already processing may be requested again. */
  method Payout(db: Database, caller: User, paymentId: Id, providerOk: bool, transferId: string)
    returns (reply: Reply)
    requires db.Valid()
    modifies db`payments
    ensures db.Valid()
    ensures var v := PayoutVerdict(old(db.payments), caller.id, paymentId);
            reply == (if v != Ok then v else if providerOk then Ok else ServerError)
    ensures reply != Ok ==> db.payments == old(db.payments)
    ensures reply == Ok ==>
              var p := Lookup(old(db.payments), PaymentKey, paymentId).value;
              db.payments == Replace(old(db.payments), PaymentKey,
                                     p.(payoutStatus := Processing, providerPayoutId := Some(transferId)))
  {
    var v := PayoutVerdict(db.payments, caller.id, paymentId);
    if v != Ok {
      return v;
    }
    if !providerOk {
      return ServerError;
    }
    var p := Lookup(db.payments, PaymentKey, paymentId).value;
    var p' := p.(payoutStatus := Processing, providerPayoutId := Some(transferId));
    StartPayoutKeepsLedger(db.payments, p, transferId);
    SameLedgerKeepsInvariants(db.payments, Replace(db.payments, PaymentKey, p'));
    db.payments := Replace(db.payments, PaymentKey, p');
    reply := Ok;
  }
}
