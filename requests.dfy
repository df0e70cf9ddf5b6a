/** The delivery-request routes of src/routes/requests.ts: creation with its
    validation, the role-dependent listing, the ranked traveler search for a
    request, the sender-side match (open -> matched, one slot taken) and the
    sender-side cancel (one slot restored when a trip was bound). */
module RequestRoutes {
  import opened Types
  import opened Tables
  import opened Store

  /** The body of POST /requests passes validation: every required text field is
      given and the offered amount lies in [10, 100]. (The separate check that the
      amount is not 0 is subsumed by the range check.) */
  function RequestInputValid(departureCity: string, destinationCity: string, pickupAddress: string,
                             deliveryAddress: string, documentDescription: string, offeredAmount: Option<real>)
    : (ok: bool)
    ensures ok <==> && Given(departureCity) && Given(destinationCity) && Given(pickupAddress)
                    && Given(deliveryAddress) && Given(documentDescription)
                    && offeredAmount.Some? && 10.0 <= offeredAmount.value <= 100.0
  {
    if !Given(departureCity) || !Given(destinationCity) || !Given(pickupAddress) || !Given(deliveryAddress)
       || !Given(documentDescription) || offeredAmount.None? || offeredAmount.value == 0.0 then false
    else !(offeredAmount.value < 10.0 || offeredAmount.value > 100.0)
  }

  /** POST /requests: 400 and no insert for an invalid body; otherwise one open,
      unmatched request of the caller is appended, with urgency within_7_days
      unless the body names one. */
  method Create(db: Database, caller: User, departureCity: string, destinationCity: string,
                pickupAddress: string, deliveryAddress: string, documentDescription: string,
                documentType: string, offeredAmount: Option<real>, urgency: Option<Urgency>,
                requestId: Id, now: nat)
    returns (reply: Reply)
    requires db.Valid()
    requires Lookup(db.requests, RequestKey, requestId).None?
    modifies db`requests
    ensures db.Valid()
    ensures reply == (if RequestInputValid(departureCity, destinationCity, pickupAddress, deliveryAddress,
                                           documentDescription, offeredAmount) then Created else BadRequest)
    ensures reply == BadRequest ==> db.requests == old(db.requests)
    ensures reply == Created ==>
              db.requests == old(db.requests) + [DeliveryRequest(
                requestId, caller.id, departureCity, destinationCity, pickupAddress, deliveryAddress,
                documentDescription, OrNull(documentType), offeredAmount.value,
                if urgency.Some? then urgency.value else WithinSevenDays,
                RequestStatus.Open, None, None, None, now)]
  {
    if !RequestInputValid(departureCity, destinationCity, pickupAddress, deliveryAddress,
                          documentDescription, offeredAmount) {
      return BadRequest;
    }
    var row := DeliveryRequest(
      requestId, caller.id, departureCity, destinationCity, pickupAddress, deliveryAddress,
      documentDescription, OrNull(documentType), offeredAmount.value,
      if urgency.Some? then urgency.value else WithinSevenDays,
      RequestStatus.Open, None, None, None, now);
    InsertFresh(db.requests, RequestKey, row);
    db.requests := db.requests + [row];
    reply := Created;
  }

  /** Newest first. */
  function CreatedRank(r: DeliveryRequest): Rank { Rank(r.createdAt as real, 0.0) }

  /** A caller of role sender, or of role both asking for `view=sender`, lists its own requests. */
  predicate OwnView(caller: User, view: string) {
    caller.role.Sender? || (caller.role.Both? && view == "sender")
  }

  /** The inner join with the sender's user row keeps only requests whose sender exists. */
  predicate SenderKnown(users: seq<User>, r: DeliveryRequest) {
    Lookup(users, UserKey, r.senderId).Some?
  }

  /** The rows GET /requests shows a caller: its own requests in the sender view;
      otherwise those of a known sender whose status is the queried one (`open`
      when the query gives none). */
  predicate Listed(users: seq<User>, caller: User, status: string, view: string, x: DeliveryRequest) {
    if OwnView(caller, view) then x.senderId == caller.id
    else StatusName(x.status) == (if Given(status) then status else "open") && SenderKnown(users, x)
  }

  /** GET /requests: exactly the listed rows, each as often as in the table, newest first. */
  function ListRequests(users: seq<User>, rs: seq<DeliveryRequest>, caller: User, status: string, view: string)
    : (r: seq<DeliveryRequest>)
    ensures forall x :: multiset(r)[x] == if Listed(users, caller, status, view, x) then multiset(rs)[x] else 0
    ensures forall i, j :: 0 <= i < j < |r| ==> r[i].createdAt >= r[j].createdAt
  {
    var r := Query(rs, (x: DeliveryRequest) => Listed(users, caller, status, view, x), CreatedRank);
    r
  }

  /** A trip offered for request `r`: same city pair, trip active, a slot free, and
      a traveler whose identity verification is approved. */
  predicate Carries(users: seq<User>, r: DeliveryRequest, t: Trip) {
    && t.departureCity == r.departureCity
    && t.destinationCity == r.destinationCity
    && t.status.Active?
    && t.availableSlots > 0
    && Lookup(users, UserKey, t.travelerId).Some?
    && Lookup(users, UserKey, t.travelerId).value.verification.Approved?
  }

  /** Ordered by the traveler's trust score, then average rating, both descending. */
  function TravelerRank(users: seq<User>, t: Trip): Rank {
    match Lookup(users, UserKey, t.travelerId)
    case Some(u) => Rank(u.trustScore as real, u.averageRating)
    case None => Rank(0.0, 0.0)
  }

  /** GET /requests/:id/travelers: 404 for an unknown request; otherwise exactly the
      trips that carry it, best trust score first and, among equal scores, best
      average rating first. */
  function TravelersForRequest(users: seq<User>, trips: seq<Trip>, rs: seq<DeliveryRequest>, requestId: Id)
    : (r: Result<seq<Trip>>)
    ensures r.Failure? <==> Lookup(rs, RequestKey, requestId).None?
    ensures r.Failure? ==> r.reply == NotFound
    ensures r.Success? ==>
              var req := Lookup(rs, RequestKey, requestId).value;
              forall t :: multiset(r.value)[t] == if Carries(users, req, t) then multiset(trips)[t] else 0
    ensures r.Success? ==>
              forall i, j :: 0 <= i < j < |r.value| ==> BetterTraveler(users, r.value[i], r.value[j])
  {
    match Lookup(rs, RequestKey, requestId)
    case None => Failure(NotFound)
    case Some(req) =>
      var found := Query(trips, (t: Trip) => Carries(users, req, t), (t: Trip) => TravelerRank(users, t));
      assert forall i, j :: 0 <= i < j < |found| ==> BetterTraveler(users, found[i], found[j]) by {
        forall i, j | 0 <= i < j < |found| ensures BetterTraveler(users, found[i], found[j]) {
          assert found[i] in found && found[j] in found;
          assert Outranks(TravelerRank(users, found[i]), TravelerRank(users, found[j]));
        }
      }
      Success(found)
  }

  /** The traveler of trip `a` is known and ranks at least as high as the known
      traveler of `b`: higher trust score, or equal score and a rating no lower. */
  predicate BetterTraveler(users: seq<User>, a: Trip, b: Trip) {
    && Lookup(users, UserKey, a.travelerId).Some?
    && Lookup(users, UserKey, b.travelerId).Some?
    && var u, v := Lookup(users, UserKey, a.travelerId).value, Lookup(users, UserKey, b.travelerId).value;
       u.trustScore > v.trustScore || (u.trustScore == v.trustScore && u.averageRating >= v.averageRating)
  }

  /** Match's answer: 404 unless the caller sends the request, then 400 unless it is
      open, then 404 unless the trip belongs to the named traveler and has a free slot. */
  function MatchVerdict(rs: seq<DeliveryRequest>, ts: seq<Trip>, callerId: Id, requestId: Id,
                        tripId: Id, travelerId: Id): (reply: Reply)
    ensures reply == Ok <==>
              && Lookup(rs, RequestKey, requestId).Some?
              && Lookup(rs, RequestKey, requestId).value.senderId == callerId
              && Lookup(rs, RequestKey, requestId).value.status.Open?
              && Lookup(ts, TripKey, tripId).Some?
              && Lookup(ts, TripKey, tripId).value.travelerId == travelerId
              && Lookup(ts, TripKey, tripId).value.availableSlots > 0
    ensures reply == BadRequest <==>
              && Lookup(rs, RequestKey, requestId).Some?
              && Lookup(rs, RequestKey, requestId).value.senderId == callerId
              && !Lookup(rs, RequestKey, requestId).value.status.Open?
    ensures reply == Ok || reply == BadRequest || reply == NotFound
  {
    match Lookup(rs, RequestKey, requestId)
    case None => NotFound
    case Some(r) =>
      if r.senderId != callerId then NotFound
      else if !r.status.Open? then BadRequest
      else
        match Lookup(ts, TripKey, tripId)
        case None => NotFound
        case Some(t) => if t.travelerId != travelerId || t.availableSlots <= 0 then NotFound else Ok
  }

  /** POST /requests/:id/match: on success the request becomes matched to the trip
      and traveler with the 6-digit tracking code, and that trip alone loses
      exactly one slot; on failure nothing changes. Slots stay non-negative. */
  method Match(db: Database, caller: User, requestId: Id, tripId: Id, travelerId: Id, code: nat)
    returns (reply: Reply)
    requires db.Valid()
    requires 100000 <= code <= 999999
    modifies db`requests, db`trips
    ensures db.Valid()
    ensures reply == MatchVerdict(old(db.requests), old(db.trips), caller.id, requestId, tripId, travelerId)
    ensures reply != Ok ==> db.requests == old(db.requests) && db.trips == old(db.trips)
    ensures reply == Ok ==>
              && db.requests == Replace(old(db.requests), RequestKey,
                                        Bind(Lookup(old(db.requests), RequestKey, requestId).value, tripId, travelerId, code))
              && db.trips == ShiftSlots(old(db.trips), tripId, -1)
    ensures SlotsNonNegative(old(db.trips)) ==> SlotsNonNegative(db.trips)
  {
    reply := MatchVerdict(db.requests, db.trips, caller.id, requestId, tripId, travelerId);
    if reply != Ok {
      return;
    }
    var r := Lookup(db.requests, RequestKey, requestId).value;
    ReplaceKeepsKeys(db.requests, RequestKey, Bind(r, tripId, travelerId, code));
    db.requests := Replace(db.requests, RequestKey, Bind(r, tripId, travelerId, code));
    ShiftSlotsKeepsKeys(db.trips, tripId, -1);
    if SlotsNonNegative(db.trips) {
      TakeSlotKeepsNonNegative(db.trips, tripId);
    }
    db.trips := ShiftSlots(db.trips, tripId, -1);
  }

  /** Statuses from which a sender may no longer cancel. */
  predicate InFlight(s: RequestStatus) {
    s.PickedUp? || s.InTransit? || s.Delivered?
  }

  /** Cancellation's answer: 404 unless the caller sends the request, 400 once it is
      picked up, in transit or delivered, 200 otherwise. An already cancelled
      request passes this guard again. */
  function CancelVerdict(rs: seq<DeliveryRequest>, callerId: Id, requestId: Id): (reply: Reply)
    ensures reply == Ok <==>
              && Lookup(rs, RequestKey, requestId).Some?
              && Lookup(rs, RequestKey, requestId).value.senderId == callerId
              && !InFlight(Lookup(rs, RequestKey, requestId).value.status)
    ensures reply == NotFound <==>
              Lookup(rs, RequestKey, requestId).None? || Lookup(rs, RequestKey, requestId).value.senderId != callerId
    ensures reply == Ok || reply == NotFound || reply == BadRequest
  {
    match Lookup(rs, RequestKey, requestId)
    case None => NotFound
    case Some(r) =>
      if r.senderId != callerId then NotFound
      else if InFlight(r.status) then BadRequest
      else Ok
  }

  /** DELETE /requests/:id: on 200 the request is cancelled and the trip named by
      `matched_trip_id`, if any, regains exactly one slot; payments are not touched.
      Otherwise nothing changes. */
  method Cancel(db: Database, caller: User, requestId: Id) returns (reply: Reply)
    requires db.Valid()
    modifies db`requests, db`trips
    ensures db.Valid()
    ensures reply == CancelVerdict(old(db.requests), caller.id, requestId)
    ensures reply != Ok ==> db.requests == old(db.requests) && db.trips == old(db.trips)
    ensures reply == Ok ==>
              var r := Lookup(old(db.requests), RequestKey, requestId).value;
              && db.requests == Replace(old(db.requests), RequestKey, r.(status := RequestStatus.Cancelled))
              && db.trips == RestoreSlot(old(db.trips), r.matchedTripId)
    ensures db.payments == old(db.payments)
  {
    var found := Lookup(db.requests, RequestKey, requestId);
    if found.None? || found.value.senderId != caller.id {
      return NotFound;
    }
    var r := found.value;
    if InFlight(r.status) {
      return BadRequest;
    }
    ReplaceKeepsKeys(db.requests, RequestKey, r.(status := RequestStatus.Cancelled));
    db.requests := Replace(db.requests, RequestKey, r.(status := RequestStatus.Cancelled));
    if r.matchedTripId.Some? {
      ShiftSlotsKeepsKeys(db.trips, r.matchedTripId.value, 1);
      db.trips := ShiftSlots(db.trips, r.matchedTripId.value, 1);
    }
    reply := Ok;
  }
}
