/** The trip routes of src/routes/trips.ts: trip creation by a traveler, the
    traveler's own listing, the open requests on a trip's route, and the
    traveler-side apply that binds an open request to the trip. Dates are
    modelled as integers that order like the stored date strings. */
module TripRoutes {
  import opened Types
  import opened Tables
  import opened Store

  /** A trip's capacity: a missing or zero capacity means three documents. */
  function Capacity(maxDocuments: Option<int>): (n: int)
    ensures maxDocuments.None? || maxDocuments.value == 0 ==> n == 3
    ensures maxDocuments.Some? && maxDocuments.value != 0 ==> n == maxDocuments.value
  {
    if maxDocuments.None? || maxDocuments.value == 0 then 3 else maxDocuments.value
  }

  /** POST /trips: 403 for a caller whose role is exactly `sender` (checked before
      the body), then 400 when a city or a date is missing; otherwise one active
      trip of the caller is appended whose free slots equal its capacity. The
      counters stay non-negative unless the body gives a negative capacity. */
  method Create(db: Database, caller: User, departureCity: string, destinationCity: string,
                departureDate: Option<int>, arrivalDate: Option<int>, flightNumber: string, airline: string,
                maxDocuments: Option<int>, tripId: Id)
    returns (reply: Reply)
    requires db.Valid()
    requires Lookup(db.trips, TripKey, tripId).None?
    modifies db`trips
    ensures db.Valid()
    ensures reply == (if caller.role.Sender? then Forbidden
                      else if !Given(departureCity) || !Given(destinationCity) || departureDate.None? || arrivalDate.None?
                      then BadRequest
                      else Created)
    ensures reply != Created ==> db.trips == old(db.trips)
    ensures reply == Created ==>
              db.trips == old(db.trips) + [Trip(tripId, caller.id, departureCity, destinationCity,
                                                departureDate.value, arrivalDate.value, OrNull(flightNumber),
                                                OrNull(airline), Capacity(maxDocuments), Capacity(maxDocuments),
                                                TripStatus.Active)]
    ensures SlotsNonNegative(old(db.trips)) && (maxDocuments.None? || maxDocuments.value >= 0) ==>
              SlotsNonNegative(db.trips)
  {
    if caller.role.Sender? {
      return Forbidden;
    }
    if !Given(departureCity) || !Given(destinationCity) || departureDate.None? || arrivalDate.None? {
      return BadRequest;
    }
    var row := Trip(tripId, caller.id, departureCity, destinationCity, departureDate.value, arrivalDate.value,
                    OrNull(flightNumber), OrNull(airline), Capacity(maxDocuments), Capacity(maxDocuments),
                    TripStatus.Active);
    InsertFresh(db.trips, TripKey, row);
    db.trips := db.trips + [row];
    reply := Created;
  }

  /** Latest departure first. */
  function DepartureRank(t: Trip): Rank { Rank(t.departureDate as real, 0.0) }

  /** GET /trips: exactly the caller's own trips, latest departure first. */
  function ListTrips(ts: seq<Trip>, callerId: Id): (r: seq<Trip>)
    ensures forall t :: multiset(r)[t] == if t.travelerId == callerId then multiset(ts)[t] else 0
    ensures forall i, j :: 0 <= i < j < |r| ==> r[i].departureDate >= r[j].departureDate
  {
    var r := Query(ts, (t: Trip) => t.travelerId == callerId, DepartureRank);
    r
  }

  /** An open request on the trip's route whose sender is a known user. */
  predicate OnRoute(users: seq<User>, t: Trip, r: DeliveryRequest) {
    && r.departureCity == t.departureCity
    && r.destinationCity == t.destinationCity
    && r.status.Open?
    && Lookup(users, UserKey, r.senderId).Some?
  }

  /** Highest offer first, then newest. */
  function OfferRank(r: DeliveryRequest): Rank { Rank(r.offeredAmount, r.createdAt as real) }

  /** GET /trips/:id/requests: 404 for an unknown trip; otherwise exactly the open
      requests on its route, highest offered amount first and, among equal
      offers, newest first. The trip's owner and status are not consulted. */
  function RequestsForTrip(users: seq<User>, ts: seq<Trip>, rs: seq<DeliveryRequest>, tripId: Id)
    : (r: Result<seq<DeliveryRequest>>)
    ensures r.Failure? <==> Lookup(ts, TripKey, tripId).None?
    ensures r.Failure? ==> r.reply == NotFound
    ensures r.Success? ==>
              var t := Lookup(ts, TripKey, tripId).value;
              forall x :: multiset(r.value)[x] == if OnRoute(users, t, x) then multiset(rs)[x] else 0
    ensures r.Success? ==>
              forall i, j :: 0 <= i < j < |r.value| ==>
                || r.value[i].offeredAmount > r.value[j].offeredAmount
                || (r.value[i].offeredAmount == r.value[j].offeredAmount && r.value[i].createdAt >= r.value[j].createdAt)
  {
    match Lookup(ts, TripKey, tripId)
    case None => Failure(NotFound)
    case Some(t) =>
      var found := Query(rs, (x: DeliveryRequest) => OnRoute(users, t, x), OfferRank);
      assert forall i, j :: 0 <= i < j < |found| ==> Outranks(OfferRank(found[i]), OfferRank(found[j]));
      Success(found)
  }

  /** Apply's answer: 404 unless the trip is the caller's, 400 when its free slots
      are exactly zero, then 404 unless the request exists and is open. */
  function ApplyVerdict(ts: seq<Trip>, rs: seq<DeliveryRequest>, callerId: Id, tripId: Id, requestId: Id)
    : (reply: Reply)
    ensures reply == Ok <==>
              && Lookup(ts, TripKey, tripId).Some?
              && Lookup(ts, TripKey, tripId).value.travelerId == callerId
              && Lookup(ts, TripKey, tripId).value.availableSlots != 0
              && Lookup(rs, RequestKey, requestId).Some?
              && Lookup(rs, RequestKey, requestId).value.status.Open?
    ensures reply == BadRequest <==>
              && Lookup(ts, TripKey, tripId).Some?
              && Lookup(ts, TripKey, tripId).value.travelerId == callerId
              && Lookup(ts, TripKey, tripId).value.availableSlots == 0
    ensures reply == Ok || reply == BadRequest || reply == NotFound
  {
    match Lookup(ts, TripKey, tripId)
    case None => NotFound
    case Some(t) =>
      if t.travelerId != callerId then NotFound
      else if t.availableSlots == 0 then BadRequest
      else
        match Lookup(rs, RequestKey, requestId)
        case None => NotFound
        case Some(r) => if r.status.Open? then Ok else NotFound
  }

  /** POST /trips/:id/apply: on success the open request becomes matched to this
      trip and to the caller with the tracking code, and the trip loses exactly one
      slot; on failure nothing changes. Slots stay non-negative. */
  method Apply(db: Database, caller: User, tripId: Id, requestId: Id, code: nat) returns (reply: Reply)
    requires db.Valid()
    requires 100000 <= code <= 999999
    modifies db`requests, db`trips
    ensures db.Valid()
    ensures reply == ApplyVerdict(old(db.trips), old(db.requests), caller.id, tripId, requestId)
    ensures reply != Ok ==> db.requests == old(db.requests) && db.trips == old(db.trips)
    ensures reply == Ok ==>
              && db.requests == Replace(old(db.requests), RequestKey,
                                        Bind(Lookup(old(db.requests), RequestKey, requestId).value, tripId, caller.id, code))
              && db.trips == ShiftSlots(old(db.trips), tripId, -1)
    ensures SlotsNonNegative(old(db.trips)) ==> SlotsNonNegative(db.trips)
  {
    reply := ApplyVerdict(db.trips, db.requests, caller.id, tripId, requestId);
    if reply != Ok {
      return;
    }
    var r := Lookup(db.requests, RequestKey, requestId).value;
    ReplaceKeepsKeys(db.requests, RequestKey, Bind(r, tripId, caller.id, code));
    db.requests := Replace(db.requests, RequestKey, Bind(r, tripId, caller.id, code));
    ShiftSlotsKeepsKeys(db.trips, tripId, -1);
    if SlotsNonNegative(db.trips) {
      var t := Lookup(db.trips, TripKey, tripId).value;
      assert t in db.trips;
      TakeSlotKeepsNonNegative(db.trips, tripId);
    }
    db.trips := ShiftSlots(db.trips, tripId, -1);
  }
}
