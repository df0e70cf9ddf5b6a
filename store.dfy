/** The shared marketplace database: one table per entity, updated in place by
    the route handlers. Every handler is modelled as one atomic method over it. */
module Store {
  import opened Types
  import opened Tables

  class Database {
    var users: seq<User>
    var trips: seq<Trip>
    var requests: seq<DeliveryRequest>
    var payments: seq<Payment>
    var reviews: seq<Review>
    var messages: seq<ChatMessage>

    constructor ()
      ensures users == [] && trips == [] && requests == []
      ensures payments == [] && reviews == [] && messages == []
      ensures Valid()
    {
      users, trips, requests := [], [], [];
      payments, reviews, messages := [], [], [];
    }

    /** Every table keeps its primary key unique. */
    ghost predicate Valid()
      reads this
    {
      && UniqueKeys(users, UserKey)
      && UniqueKeys(trips, TripKey)
      && UniqueKeys(requests, RequestKey)
      && UniqueKeys(payments, PaymentKey)
      && UniqueKeys(payments, PaymentRequestKey)
      && SplitsHold(payments)
      && UniqueKeys(reviews, ReviewKey)
      && UniqueKeys(messages, MessageKey)
    }
  }

  /** The trips table with `delta` added to the free slots of every row with the trip's id. */
  function ShiftSlots(ts: seq<Trip>, tripId: Id, delta: int): (r: seq<Trip>)
    ensures |r| == |ts|
    ensures forall i :: 0 <= i < |ts| ==>
              r[i] == if ts[i].id == tripId then ts[i].(availableSlots := ts[i].availableSlots + delta) else ts[i]
  {
    seq(|ts|, i requires 0 <= i < |ts| =>
      if ts[i].id == tripId then ts[i].(availableSlots := ts[i].availableSlots + delta) else ts[i])
  }

  /** Restoring a slot when `matched_trip_id` is set, leaving the trips alone otherwise. */
  function RestoreSlot(ts: seq<Trip>, matchedTrip: Option<Id>): seq<Trip> {
    if matchedTrip.Some? then ShiftSlots(ts, matchedTrip.value, 1) else ts
  }

  /** The row update a match or an apply performs: status matched, bound to the trip and the
      traveler, with the tracking code. */
  function Bind(r: DeliveryRequest, tripId: Id, travelerId: Id, code: nat): DeliveryRequest {
    r.(status := Matched, matchedTripId := Some(tripId), matchedTravelerId := Some(travelerId),
       trackingCode := Some(code))
  }

  /** Every payment of the request gets the new escrow status; the others are left alone. */
  function SetEscrow(ps: seq<Payment>, requestId: Id, status: EscrowStatus): (r: seq<Payment>)
    ensures |r| == |ps|
    ensures forall i :: 0 <= i < |ps| ==>
              r[i] == if ps[i].deliveryRequestId == requestId then ps[i].(escrowStatus := status) else ps[i]
    ensures SameLedger(ps, r)
  {
    seq(|ps|, i requires 0 <= i < |ps| =>
      if ps[i].deliveryRequestId == requestId then ps[i].(escrowStatus := status) else ps[i])
  }

  /** The platform keeps 15% of a payment's total and the traveler is owed the rest. */
  predicate SplitHolds(p: Payment) {
    p.platformFee == p.totalAmount * 0.15 && p.travelerPayout == p.totalAmount - p.platformFee
  }

  ghost predicate SplitsHold(ps: seq<Payment>) {
    forall i :: 0 <= i < |ps| ==> SplitHolds(ps[i])
  }

  /** `b` is `a` with at most status and provider columns changed: the same payments
      in the same places, for the same request and parties, with the same amounts. */
  ghost predicate SameLedger(a: seq<Payment>, b: seq<Payment>) {
    && |a| == |b|
    && forall i :: 0 <= i < |a| ==>
         && b[i].id == a[i].id
         && b[i].deliveryRequestId == a[i].deliveryRequestId
         && b[i].senderId == a[i].senderId
         && b[i].travelerId == a[i].travelerId
         && b[i].totalAmount == a[i].totalAmount
         && b[i].platformFee == a[i].platformFee
         && b[i].travelerPayout == a[i].travelerPayout
  }

  /** An update that leaves the ledger columns alone keeps both payment keys unique
      and every fee split intact. */
  lemma SameLedgerKeepsInvariants(a: seq<Payment>, b: seq<Payment>)
    requires SameLedger(a, b)
    requires UniqueKeys(a, PaymentKey) && UniqueKeys(a, PaymentRequestKey) && SplitsHold(a)
    ensures UniqueKeys(b, PaymentKey) && UniqueKeys(b, PaymentRequestKey) && SplitsHold(b)
  {
    forall i | 0 <= i < |b| ensures SplitHolds(b[i]) {
      assert SplitHolds(a[i]);
    }
  }

  ghost predicate SlotsNonNegative(ts: seq<Trip>) {
    forall i :: 0 <= i < |ts| ==> ts[i].availableSlots >= 0
  }

  /** Shifting slots keeps every trip id where it was. */
  lemma ShiftSlotsKeepsKeys(ts: seq<Trip>, tripId: Id, delta: int)
    requires UniqueKeys(ts, TripKey)
    ensures UniqueKeys(ShiftSlots(ts, tripId, delta), TripKey)
  {
    var ts' := ShiftSlots(ts, tripId, delta);
    assert forall i :: 0 <= i < |ts| ==> ts'[i].id == ts[i].id;
  }

  /** With unique ids, shifting a trip's slots is the by-id replacement of that one row. */
  lemma ShiftSlotsIsReplace(ts: seq<Trip>, tripId: Id, delta: int, t: Trip)
    requires UniqueKeys(ts, TripKey)
    requires Lookup(ts, TripKey, tripId) == Some(t)
    ensures ShiftSlots(ts, tripId, delta) == Replace(ts, TripKey, t.(availableSlots := t.availableSlots + delta))
  {
    var t' := t.(availableSlots := t.availableSlots + delta);
    var a, b := ShiftSlots(ts, tripId, delta), Replace(ts, TripKey, t');
    var j :| 0 <= j < |ts| && ts[j] == t;
    forall i | 0 <= i < |ts| ensures a[i] == b[i] {
      if ts[i].id == tripId {
        assert TripKey(ts[i]) == TripKey(ts[j]);
      }
    }
  }

  /** Looking a trip up after shifting its slots finds it with the shifted counter. */
  lemma ShiftSlotsLookup(ts: seq<Trip>, tripId: Id, delta: int, t: Trip)
    requires UniqueKeys(ts, TripKey)
    requires Lookup(ts, TripKey, tripId) == Some(t)
    ensures Lookup(ShiftSlots(ts, tripId, delta), TripKey, tripId) == Some(t.(availableSlots := t.availableSlots + delta))
  {
    var t' := t.(availableSlots := t.availableSlots + delta);
    ShiftSlotsIsReplace(ts, tripId, delta, t);
    LookupReplace(ts, TripKey, t', tripId);
  }

  /** Restoring a trip's slot twice gives it back two slots. */
  lemma RestoreSlotTwice(ts: seq<Trip>, tripId: Id, t: Trip)
    requires UniqueKeys(ts, TripKey)
    requires Lookup(ts, TripKey, tripId) == Some(t)
    ensures Lookup(RestoreSlot(RestoreSlot(ts, Some(tripId)), Some(tripId)), TripKey, tripId)
            == Some(t.(availableSlots := t.availableSlots + 2))
  {
    var once := ShiftSlots(ts, tripId, 1);
    ShiftSlotsLookup(ts, tripId, 1, t);
    ShiftSlotsKeepsKeys(ts, tripId, 1);
    ShiftSlotsLookup(once, tripId, 1, t.(availableSlots := t.availableSlots + 1));
  }

  /** Giving a slot back to the trip it was taken from restores the trips exactly. */
  lemma {:induction false} RestoreUndoesTake(ts: seq<Trip>, tripId: Id)
    ensures ShiftSlots(ShiftSlots(ts, tripId, -1), tripId, 1) == ts
  {
    var once := ShiftSlots(ts, tripId, -1);
    var twice := ShiftSlots(once, tripId, 1);
    forall i | 0 <= i < |ts| ensures twice[i] == ts[i] {
      assert once[i].id == ts[i].id;
    }
  }

  /** Taking one slot from a trip that has one keeps every counter non-negative. */
  lemma TakeSlotKeepsNonNegative(ts: seq<Trip>, tripId: Id)
    requires UniqueKeys(ts, TripKey)
    requires SlotsNonNegative(ts)
    requires var t := Lookup(ts, TripKey, tripId); t.Some? ==> t.value.availableSlots > 0
    ensures SlotsNonNegative(ShiftSlots(ts, tripId, -1))
  {
    var ts' := ShiftSlots(ts, tripId, -1);
    forall i | 0 <= i < |ts'| ensures ts'[i].availableSlots >= 0 {
      if ts[i].id == tripId {
        LookupAt(ts, TripKey, i);
      }
    }
  }
}
