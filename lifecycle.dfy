/** How the pieces compose. A route runs authMiddleware, then requireVerified where
    the router mounts it, then its handler on the admitted caller; and several
    lifecycle sequences follow from the handlers' contracts alone: a match undone
    by a cancel, a cancel repeated, and a delivery confirmed after a refusal. */
module Lifecycle {
  import opened Types
  import opened Tables
  import opened Store
  import opened Access
  import opened RequestRoutes
  import opened BookingRoutes
  import opened PaymentRoutes

  /** POST /requests/:id/match as mounted: authMiddleware and requireVerified decide
      first, and only an active, approved caller reaches the handler. */
  method MatchRoute(db: Database, header: Option<string>, verify: string -> Option<Claims>,
                    requestId: Id, tripId: Id, travelerId: Id, code: nat)
    returns (reply: Reply)
    requires db.Valid()
    requires 100000 <= code <= 999999
    modifies db`requests, db`trips
    ensures db.Valid()
    ensures var a := Admit(old(db.users), header, verify, true);
            && (a.Failure? ==> reply == a.reply && db.requests == old(db.requests) && db.trips == old(db.trips))
            && (a.Success? ==>
                  && a.value.verification.Approved?
                  && reply == MatchVerdict(old(db.requests), old(db.trips), a.value.id, requestId, tripId, travelerId))
    ensures reply != Ok ==> db.requests == old(db.requests) && db.trips == old(db.trips)
    ensures reply == Ok ==>
              && db.requests == Replace(old(db.requests), RequestKey,
                                        Bind(Lookup(old(db.requests), RequestKey, requestId).value, tripId, travelerId, code))
              && db.trips == ShiftSlots(old(db.trips), tripId, -1)
  {
    var a := Admit(db.users, header, verify, true);
    if a.Failure? {
      return a.reply;
    }
    reply := Match(db, a.value, requestId, tripId, travelerId, code);
  }

  /** POST /payments/webhook/flutterwave as mounted: the payments router puts
      authMiddleware in front of every route, so a callback without a bearer token
      of an active user is answered 401 or 403 and no payment is marked held. */
  method WebhookRoute(db: Database, header: Option<string>, verify: string -> Option<Claims>,
                      event: string, chargeStatus: string, txRef: string, providerTxId: string,
                      verification: Option<bool>)
    returns (reply: Reply)
    requires db.Valid()
    modifies db`payments
    ensures db.Valid()
    ensures header.None? ==> reply == Unauthorized && db.payments == old(db.payments)
    ensures Authenticate(old(db.users), header, verify).Failure? ==>
              (reply == Unauthorized || reply == Forbidden) && db.payments == old(db.payments)
    ensures Authenticate(old(db.users), header, verify).Success? ==>
              reply == (if CompletedCharge(event, chargeStatus) && verification.None? then ServerError else Ok) &&
              db.payments == (if ChargeConfirmed(event, chargeStatus, verification)
                              then MarkHeld(old(db.payments), txRef, providerTxId) else old(db.payments))
  {
    var a := Authenticate(db.users, header, verify);
    if a.Failure? {
      return a.reply;
    }
    reply := Webhook(db, event, chargeStatus, txRef, providerTxId, verification);
  }

  /** A sender who matches an open request and then cancels it gets both answered
      200, leaves the request cancelled, and leaves every trip exactly as before. */
  method MatchThenCancel(db: Database, caller: User, requestId: Id, tripId: Id, travelerId: Id, code: nat)
    returns (matched: Reply, cancelled: Reply)
    requires db.Valid()
    requires 100000 <= code <= 999999
    requires MatchVerdict(db.requests, db.trips, caller.id, requestId, tripId, travelerId) == Ok
    modifies db`requests, db`trips
    ensures matched == Ok && cancelled == Ok
    ensures db.trips == old(db.trips)
    ensures Lookup(db.requests, RequestKey, requestId).Some?
    ensures Lookup(db.requests, RequestKey, requestId).value.status.Cancelled?
  {
    var r := Lookup(db.requests, RequestKey, requestId).value;
    var before := db.requests;
    matched := Match(db, caller, requestId, tripId, travelerId, code);
    LookupReplace(before, RequestKey, Bind(r, tripId, travelerId, code), requestId);
    var afterMatch := db.requests;
    cancelled := Cancel(db, caller, requestId);
    LookupReplace(afterMatch, RequestKey, Bind(r, tripId, travelerId, code).(status := RequestStatus.Cancelled), requestId);
    RestoreUndoesTake(old(db.trips), tripId);
  }

  /** Cancelling a matched request twice is answered 200 both times, and its trip
      regains two slots: the cancel guard does not reject a cancelled request, and
      the cancelled row still names its trip. */
  lemma CancelTwice(rs: seq<DeliveryRequest>, ts: seq<Trip>, callerId: Id, requestId: Id, r: DeliveryRequest, t: Trip)
    requires UniqueKeys(rs, RequestKey) && UniqueKeys(ts, TripKey)
    requires Lookup(rs, RequestKey, requestId) == Some(r)
    requires r.senderId == callerId && r.status.Matched? && r.matchedTripId.Some?
    requires Lookup(ts, TripKey, r.matchedTripId.value) == Some(t)
    ensures CancelVerdict(rs, callerId, requestId) == Ok
    ensures var r' := r.(status := RequestStatus.Cancelled);
            var rs' := Replace(rs, RequestKey, r');
            && Lookup(rs', RequestKey, requestId) == Some(r')
            && CancelVerdict(rs', callerId, requestId) == Ok
    ensures var twice := RestoreSlot(RestoreSlot(ts, r.matchedTripId), r.matchedTripId);
            Lookup(twice, TripKey, r.matchedTripId.value) == Some(t.(availableSlots := t.availableSlots + 2))
  {
    var r' := r.(status := RequestStatus.Cancelled);
    assert RequestKey(r') == requestId;
    LookupReplace(rs, RequestKey, r', requestId);
    assert Lookup(Replace(rs, RequestKey, r'), RequestKey, requestId) == Some(r');
    RestoreSlotTwice(ts, r.matchedTripId.value, t);
  }

  /** A matched traveler who refuses a request can still confirm its delivery with
      the tracking code: the request ends delivered and its refunded payments are
      released again, since confirm-delivery does not look at the status. */
  method RefuseThenConfirm(db: Database, caller: User, requestId: Id, code: nat)
    returns (refused: Reply, confirmed: Reply)
    requires db.Valid()
    requires CarriedBy(db.requests, requestId, caller.id).Some?
    requires CarriedBy(db.requests, requestId, caller.id).value.trackingCode == Some(code)
    modifies db`requests, db`trips, db`payments, db`users
    ensures refused == Ok && confirmed == Ok
    ensures Lookup(db.requests, RequestKey, requestId).Some?
    ensures Lookup(db.requests, RequestKey, requestId).value.status.Delivered?
    ensures db.payments == SetEscrow(SetEscrow(old(db.payments), requestId, Refunded), requestId, Released)
  {
    var r := CarriedBy(db.requests, requestId, caller.id).value;
    var requests0 := db.requests;
    refused := Refuse(db, caller, requestId);
    LookupReplace(requests0, RequestKey, r.(status := RequestStatus.Cancelled), requestId);
    var requests1 := db.requests;
    confirmed := ConfirmDelivery(db, caller, requestId, Some(code));
    LookupReplace(requests1, RequestKey, r.(status := Delivered), requestId);
  }
}
