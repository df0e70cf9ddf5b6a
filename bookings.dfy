/** The traveler-side lifecycle routes of src/routes/bookings.ts: pickup, the
    in-transit update, delivery confirmation by tracking code (which releases
    escrow and credits the traveler's record) and refusal (which cancels the
    request, restores the trip slot and refunds escrow). Every route acts only
    on a request whose matched traveler is the caller. */
module BookingRoutes {
  import opened Types
  import opened Tables
  import opened Store

  /** The request, found by id only when the given traveler is its matched traveler. */
  function CarriedBy(rs: seq<DeliveryRequest>, requestId: Id, travelerId: Id): (r: Option<DeliveryRequest>)
    ensures r.Some? <==> Lookup(rs, RequestKey, requestId).Some?
                         && Lookup(rs, RequestKey, requestId).value.matchedTravelerId == Some(travelerId)
    ensures r.Some? ==> r.value in rs && r.value.id == requestId && r.value.matchedTravelerId == Some(travelerId)
  {
    match Lookup(rs, RequestKey, requestId)
    case None => None
    case Some(r) => if r.matchedTravelerId == Some(travelerId) then Some(r) else None
  }

  /** POST /bookings/:id/confirm-pickup: 404 unless the caller carries the request,
      400 unless it is exactly matched; then it becomes picked up. */
  method ConfirmPickup(db: Database, caller: User, requestId: Id) returns (reply: Reply)
    requires db.Valid()
    modifies db`requests
    ensures db.Valid()
    ensures var r := CarriedBy(old(db.requests), requestId, caller.id);
            reply == (if r.None? then NotFound else if !r.value.status.Matched? then BadRequest else Ok)
    ensures reply != Ok ==> db.requests == old(db.requests)
    ensures reply == Ok ==>
              var r := CarriedBy(old(db.requests), requestId, caller.id).value;
              db.requests == Replace(old(db.requests), RequestKey, r.(status := PickedUp))
  {
    var found := CarriedBy(db.requests, requestId, caller.id);
    if found.None? {
      return NotFound;
    }
    if !found.value.status.Matched? {
      return BadRequest;
    }
    ReplaceKeepsKeys(db.requests, RequestKey, found.value.(status := PickedUp));
    db.requests := Replace(db.requests, RequestKey, found.value.(status := PickedUp));
    reply := Ok;
  }

  /** POST /bookings/:id/update-status: 400 for any status other than `in_transit`,
      checked before the lookup; then 404 unless the caller carries the request.
      The request's current status is not consulted. */
  method UpdateStatus(db: Database, caller: User, requestId: Id, status: string) returns (reply: Reply)
    requires db.Valid()
    modifies db`requests
    ensures db.Valid()
    ensures reply == (if status != "in_transit" then BadRequest
                      else if CarriedBy(old(db.requests), requestId, caller.id).None? then NotFound
                      else Ok)
    ensures reply != Ok ==> db.requests == old(db.requests)
    ensures reply == Ok ==>
              var r := CarriedBy(old(db.requests), requestId, caller.id).value;
              db.requests == Replace(old(db.requests), RequestKey, r.(status := InTransit))
  {
    if status != "in_transit" {
      return BadRequest;
    }
    var found := CarriedBy(db.requests, requestId, caller.id);
    if found.None? {
      return NotFound;
    }
    ReplaceKeepsKeys(db.requests, RequestKey, found.value.(status := InTransit));
    db.requests := Replace(db.requests, RequestKey, found.value.(status := InTransit));
    reply := Ok;
  }

  /** The traveler's record after one confirmed delivery: both delivery counters go
      up by one and the trust score by five while it is below 95. The score never
      falls, never passes 99 from at most 99, and nothing else changes. */
  function Credit(u: User): (r: User)
    ensures r.totalDeliveries == u.totalDeliveries + 1
    ensures r.successfulDeliveries == u.successfulDeliveries + 1
    ensures u.trustScore < 95 ==> r.trustScore == u.trustScore + 5
    ensures u.trustScore >= 95 ==> r.trustScore == u.trustScore
    ensures r.trustScore >= u.trustScore
    ensures u.trustScore <= 99 ==> r.trustScore <= 99
    ensures r.(trustScore := u.trustScore, totalDeliveries := u.totalDeliveries,
               successfulDeliveries := u.successfulDeliveries) == u
  {
    u.(totalDeliveries := u.totalDeliveries + 1,
       successfulDeliveries := u.successfulDeliveries + 1,
       trustScore := if u.trustScore < 95 then u.trustScore + 5 else u.trustScore)
  }

  /** A traveler's record after `n` confirmed deliveries. */
  function Credits(u: User, n: nat): User {
    if n == 0 then u else Credit(Credits(u, n - 1))
  }

  /** However many deliveries a traveler confirms, a trust score that started at
      most 99 stays at most 99: it climbs by five per delivery until it reaches 95
      or more and then stays put. */
  lemma {:induction false} RepeatedCredit(u: User, n: nat)
    requires u.trustScore <= 99
    ensures Credits(u, n).totalDeliveries == u.totalDeliveries + n
    ensures Credits(u, n).successfulDeliveries == u.successfulDeliveries + n
    ensures u.trustScore <= Credits(u, n).trustScore <= 99
    ensures Credits(u, n).trustScore >= 95 || Credits(u, n).trustScore == u.trustScore + 5 * n
  {
    if n > 0 {
      RepeatedCredit(u, n - 1);
    }
  }

  /** The users table after the delivery credit of every row with the traveler's id. */
  function CreditTraveler(us: seq<User>, travelerId: Id): (r: seq<User>)
    ensures |r| == |us|
    ensures forall i :: 0 <= i < |us| ==> r[i] == if us[i].id == travelerId then Credit(us[i]) else us[i]
  {
    seq(|us|, i requires 0 <= i < |us| => if us[i].id == travelerId then Credit(us[i]) else us[i])
  }

  /** Crediting a traveler keeps every user id where it was. */
  lemma CreditTravelerKeepsKeys(us: seq<User>, travelerId: Id)
    requires UniqueKeys(us, UserKey)
    ensures UniqueKeys(CreditTraveler(us, travelerId), UserKey)
  {
    var us' := CreditTraveler(us, travelerId);
    assert forall i :: 0 <= i < |us| ==> us'[i].id == us[i].id;
  }

  /** Confirm-delivery's answer: 404 unless the caller carries the request, then 400
      unless the given tracking code is present and equal to the stored one. */
  function DeliveryVerdict(rs: seq<DeliveryRequest>, requestId: Id, callerId: Id, code: Option<nat>)
    : (reply: Reply)
    ensures reply == Ok <==>
              && CarriedBy(rs, requestId, callerId).Some?
              && code.Some?
              && CarriedBy(rs, requestId, callerId).value.trackingCode == code
    ensures reply == NotFound <==> CarriedBy(rs, requestId, callerId).None?
    ensures reply == Ok || reply == NotFound || reply == BadRequest
  {
    match CarriedBy(rs, requestId, callerId)
    case None => NotFound
    case Some(r) => if r.trackingCode.None? || code != r.trackingCode then BadRequest else Ok
  }

  /** POST /bookings/:id/confirm-delivery: with the right tracking code the request
      becomes delivered, every payment of the request is released and the caller
      is credited; otherwise nothing changes. The request's current status is not
      consulted, so a cancelled or already delivered request is confirmed again. */
  method ConfirmDelivery(db: Database, caller: User, requestId: Id, code: Option<nat>) returns (reply: Reply)
    requires db.Valid()
    modifies db`requests, db`payments, db`users
    ensures db.Valid()
    ensures reply == DeliveryVerdict(old(db.requests), requestId, caller.id, code)
    ensures reply != Ok ==>
              db.requests == old(db.requests) && db.payments == old(db.payments) && db.users == old(db.users)
    ensures reply == Ok ==>
              var r := CarriedBy(old(db.requests), requestId, caller.id).value;
              && db.requests == Replace(old(db.requests), RequestKey, r.(status := Delivered))
              && db.payments == SetEscrow(old(db.payments), requestId, Released)
              && db.users == CreditTraveler(old(db.users), caller.id)
  {
    reply := DeliveryVerdict(db.requests, requestId, caller.id, code);
    if reply != Ok {
      return;
    }
    var r := CarriedBy(db.requests, requestId, caller.id).value;
    ReplaceKeepsKeys(db.requests, RequestKey, r.(status := Delivered));
    db.requests := Replace(db.requests, RequestKey, r.(status := Delivered));
    SameLedgerKeepsInvariants(db.payments, SetEscrow(db.payments, requestId, Released));
    db.payments := SetEscrow(db.payments, requestId, Released);
    CreditTravelerKeepsKeys(db.users, caller.id);
    db.users := CreditTraveler(db.users, caller.id);
  }

  /** POST /bookings/:id/refuse: 404 unless the caller carries the request;
      otherwise, whatever its status, it becomes cancelled, its bound trip regains
      one slot and every payment of the request is refunded. */
  method Refuse(db: Database, caller: User, requestId: Id) returns (reply: Reply)
    requires db.Valid()
    modifies db`requests, db`trips, db`payments
    ensures db.Valid()
    ensures reply == (if CarriedBy(old(db.requests), requestId, caller.id).None? then NotFound else Ok)
    ensures reply != Ok ==>
              db.requests == old(db.requests) && db.trips == old(db.trips) && db.payments == old(db.payments)
    ensures reply == Ok ==>
              var r := CarriedBy(old(db.requests), requestId, caller.id).value;
              && db.requests == Replace(old(db.requests), RequestKey, r.(status := RequestStatus.Cancelled))
              && db.trips == RestoreSlot(old(db.trips), r.matchedTripId)
              && db.payments == SetEscrow(old(db.payments), requestId, Refunded)
  {
    var found := CarriedBy(db.requests, requestId, caller.id);
    if found.None? {
      return NotFound;
    }
    var r := found.value;
    ReplaceKeepsKeys(db.requests, RequestKey, r.(status := RequestStatus.Cancelled));
    db.requests := Replace(db.requests, RequestKey, r.(status := RequestStatus.Cancelled));
    if r.matchedTripId.Some? {
      ShiftSlotsKeepsKeys(db.trips, r.matchedTripId.value, 1);
      db.trips := ShiftSlots(db.trips, r.matchedTripId.value, 1);
    }
    SameLedgerKeepsInvariants(db.payments, SetEscrow(db.payments, requestId, Refunded));
    db.payments := SetEscrow(db.payments, requestId, Refunded);
    reply := Ok;
  }
}
