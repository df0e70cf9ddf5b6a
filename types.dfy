/** Rows and enumerations of the marketplace schema (src/types/index.ts), the
    client-visible reply of a route handler, and the Option/Result wrappers. */
module Types {

  /** Primary keys are the strings produced by the id generator. */
  type Id = string

  datatype Option<+T> = None | Some(value: T)

  /** A handler either produces a value or stops with an HTTP error reply. */
  datatype Result<+T> = Success(value: T) | Failure(reply: Reply)

  /** The status part of a handler's HTTP response. */
  datatype Reply = Ok | Created | BadRequest | Unauthorized | Forbidden | NotFound | Conflict | ServerError
  {
    function Code(): nat {
      match this
      case Ok => 200
      case Created => 201
      case BadRequest => 400
      case Unauthorized => 401
      case Forbidden => 403
      case NotFound => 404
      case Conflict => 409
      case ServerError => 500
    }
  }

  datatype Role = Sender | Traveler | Both
  datatype VerificationStatus = Pending | Approved | Rejected
  datatype AccountStatus = Active | Suspended | Banned
  datatype TripStatus = Active | InProgress | Completed | Cancelled
  datatype Urgency = WithinThreeDays | WithinSevenDays | Flexible
  datatype RequestStatus = Open | Matched | PickedUp | InTransit | Delivered | Disputed | Cancelled
  datatype EscrowStatus = Pending | Held | Released | Refunded | Disputed
  datatype PayoutStatus = Pending | Processing | Completed
  datatype ReviewType = SenderToTraveler | TravelerToSender

  /** The wire names of the roles, as the signup body carries them. */
  function RoleName(r: Role): string {
    match r
    case Sender => "sender"
    case Traveler => "traveler"
    case Both => "both"
  }

  /** The wire names of request statuses, as the `status` query parameter carries them. */
  function StatusName(s: RequestStatus): string {
    match s
    case Open => "open"
    case Matched => "matched"
    case PickedUp => "picked_up"
    case InTransit => "in_transit"
    case Delivered => "delivered"
    case Disputed => "disputed"
    case Cancelled => "cancelled"
  }

  datatype User = User(
    id: Id,
    email: string,
    phone: string,
    passwordHash: string,
    fullName: string,
    role: Role,
    verification: VerificationStatus,
    accountStatus: AccountStatus,
    trustScore: int,
    totalDeliveries: int,
    successfulDeliveries: int,
    averageRating: real,
    lastLoginAt: Option<nat>)

  datatype Trip = Trip(
    id: Id,
    travelerId: Id,
    departureCity: string,
    destinationCity: string,
    departureDate: int,
    arrivalDate: int,
    flightNumber: Option<string>,
    airline: Option<string>,
    maxDocuments: int,
    availableSlots: int,
    status: TripStatus)

  datatype DeliveryRequest = DeliveryRequest(
    id: Id,
    senderId: Id,
    departureCity: string,
    destinationCity: string,
    pickupAddress: string,
    deliveryAddress: string,
    documentDescription: string,
    documentType: Option<string>,
    offeredAmount: real,
    urgency: Urgency,
    status: RequestStatus,
    trackingCode: Option<nat>,
    matchedTravelerId: Option<Id>,
    matchedTripId: Option<Id>,
    createdAt: nat)

  datatype Payment = Payment(
    id: Id,
    deliveryRequestId: Id,
    senderId: Id,
    travelerId: Option<Id>,
    totalAmount: real,
    platformFee: real,
    travelerPayout: real,
    paymentMethod: string,
    escrowStatus: EscrowStatus,
    payoutStatus: PayoutStatus,
    txRef: string,
    providerPaymentId: Option<string>,
    providerPayoutId: Option<string>)

  datatype Review = Review(
    id: Id,
    deliveryRequestId: Id,
    reviewerId: Id,
    revieweeId: Option<Id>,
    rating: real,
    reviewText: Option<string>,
    reviewType: ReviewType,
    createdAt: nat)

  datatype ChatMessage = ChatMessage(
    id: Id,
    deliveryRequestId: Id,
    senderId: Id,
    receiverId: Option<Id>,
    messageText: string,
    createdAt: nat,
    readAt: Option<nat>)

  /** The primary-key projections, one per table. */
  function UserKey(u: User): Id { u.id }
  function TripKey(t: Trip): Id { t.id }
  function RequestKey(r: DeliveryRequest): Id { r.id }
  function PaymentKey(p: Payment): Id { p.id }
  function ReviewKey(r: Review): Id { r.id }
  function MessageKey(m: ChatMessage): Id { m.id }

  /** A delivery request has at most one payment, so its id also keys the payments. */
  function PaymentRequestKey(p: Payment): Id { p.deliveryRequestId }

  /** A JSON string field is present in the sense of `!field` being false. */
  predicate Given(s: string) { s != "" }

  /** An optional string column as `field || null` stores it. */
  function OrNull(s: string): Option<string> { if s == "" then None else Some(s) }
}
