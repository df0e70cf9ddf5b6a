# SafiriDocs delivery lifecycle in Dafny

SafiriDocs is a marketplace where senders post document-delivery requests and
travelers carry the documents on their trips. This project models its route
handlers as one sequential state machine over six tables: users, trips,
delivery requests, payments, reviews and chat messages. It covers:

- a request's lifecycle, from open through matched, picked up and in transit
  to delivered, or to cancelled;
- the trip capacity that matching takes and cancelling or refusing gives back;
- the escrow ledger with its 15% platform fee, the provider webhook and the
  payout guards;
- reviews, with the reviewee's average rating recomputed as a mean;
- the per-request chat;
- the access guards in front of all of them, and signup, login and the
  profile route.

The state is the class `Store.Database`. It holds one `seq` field per table, in
insertion order. Its invariant `Valid()` says that:

- every table keeps its primary key unique;
- a request has at most one payment;
- every payment's fee split holds.

Each route handler is a method on that state. Its contract gives the reply
through a pure `...Verdict` function of the old state. On success it gives the
whole new state through table functions: `Tables.Replace` (update by key),
`Store.ShiftSlots`, `Store.SetEscrow`, `PaymentRoutes.MarkHeld`,
`ChatRoutes.MarkedRead`, `ReviewRoutes.SetAverage` and
`BookingRoutes.CreditTraveler`. On any error reply nothing changes, with one
exception: `PaymentRoutes.Initiate` answers 500 for a provider failure after it
has already appended the payment row, and the row stays. The
listing routes are pure functions. Each one is specified by the multiset of
rows it returns and by the order of those rows.

Outside results are parameters:

- generated ids and the current time;
- the 6-digit tracking code, required to lie in 100000..999999;
- the password hash `hash` and the token check `verify`;
- the payment provider's answers `providerOk` and `verification`. `verification`
  is None when the webhook's verification call throws;
- the new user's baseline trust score.

Money and ratings are `real`, so the fee split is exact. Dates are integers
that order like the stored date strings.

Module `Lifecycle` composes the handlers:

- the middleware chain in front of a route;
- a match undone by a cancel, which restores the trips exactly;
- a cancel repeated, in which the trip regains two slots. That is why free
  slots can exceed a trip's capacity;
- a refusal followed by a delivery confirmation, which ends delivered with its
  payments released.

### Behaviour worth knowing

The model follows the code in each of these cases:

- The trust score rises by 5 while it is below 95. A score of 94 therefore
  becomes 99, so the bound that holds is 99 (`BookingRoutes.RepeatedCredit`).
- Sender-side cancel does not refund escrow; only refusal does.
- Neither cancel nor refuse rejects an already cancelled request.
  A trip's free slots can therefore exceed its `max_documents`
  (`Lifecycle.CancelTwice`).
- Neither update-status nor confirm-delivery looks at the prior status.
- Apply checks neither the city pair nor the trip status. It rejects only
  exactly zero free slots, so a trip created with a negative `max_documents`
  passes that check.
- A second review of the same request by the same reviewer answers 400
  (src/routes/reviews.ts:53-63).
- `requireRole` is exported by the middleware and imported by the request and
  trip routers, but no route mounts it. Trip creation checks the role inside its
  handler. `Access.RequireRole` models the guard as written, for any router
  that mounts it.
- The payments router puts `authMiddleware` in front of the provider webhook
  too. A callback without a valid bearer token of an active user is therefore
  refused (`Lifecycle.WebhookRoute`).

## Model

| member | source | states |
|---|---|---|
| Access.BearerToken | src/middleware/auth.ts:9-15 | a token exists iff the header is present and starts with "Bearer "; the header is then "Bearer " followed by the token |
| Access.BearerRoundTrip | src/middleware/auth.ts:11-15 | prefixing any token with "Bearer " gives a header that yields exactly that token |
| Access.Authenticate | src/middleware/auth.ts:9-55 | admits iff there is a bearer token, its claims check, and its user exists and is active; the admitted caller is the active row of the token's user; 403 iff the token checks and names an existing user whose account is not active; every other failure is 401 |
| Access.RequireRole | src/middleware/auth.ts:58-72 | no caller gives 401; role both always passes; any other role passes iff it is allowed; otherwise 403 |
| Access.RequireVerified | src/middleware/auth.ts:74-89 | no caller gives 401; the caller passes iff verification is approved; otherwise 403 |
| Access.Admit | src/routes/requests.ts:9-12 | an authentication failure passes through unchanged; an authenticated caller is admitted iff verification is not mounted or the caller is approved, and otherwise gets 403; whoever is admitted is an active user of the table |
| AuthRoutes.RoleFromName | src/routes/auth.ts:21-23 | a role is read iff the name is sender, traveler or both, and it names back to the same string |
| AuthRoutes.RoleNameRoundTrip | src/routes/auth.ts:21-23 | every role's wire name reads back as that role |
| AuthRoutes.SignupVerdict | src/routes/auth.ts:14-33 | 201 iff all fields are given, the role is valid and no user has the email or the phone; 409 iff only the uniqueness fails; 400 otherwise |
| AuthRoutes.Signup | src/routes/auth.ts:8-59 | on 201, exactly one user holding hash(password) with the parsed role is appended; otherwise the users are unchanged; keys stay unique |
| AuthRoutes.UserByEmail | src/routes/auth.ts:75-78 | finds a user with the email iff one exists |
| AuthRoutes.CheckCredentials | src/routes/auth.ts:68-94 | 400 iff the email or password is missing; 401 for an unknown email and for a hash mismatch alike; with a matching hash, success with that user iff the account is active and 403 otherwise; success only for an active user with the email and hash |
| AuthRoutes.IssueClaims | src/routes/auth.ts:104-112 | the token names the user and role, is issued now and expires 604800 seconds later |
| AuthRoutes.Login | src/routes/auth.ts:62-126 | the reply follows CheckCredentials; only a successful login stamps last_login_at on that user and issues claims; a failure changes nothing |
| AuthRoutes.Me | src/routes/auth.ts:142-185 | success iff there is a bearer token, its claims check and its user exists; 404 iff only the user is missing; otherwise 401 |
| AuthRoutes.MeIgnoresAccountStatus | src/routes/auth.ts:161-181 | a user whom authMiddleware refuses with 403 still reads their profile through /me |
| RequestRoutes.RequestInputValid | src/routes/requests.ts:27-35 | accepted iff the five text fields are given and the amount is present and within [10, 100] |
| RequestRoutes.Create | src/routes/requests.ts:12-56 | 400 and no insert for an invalid body; otherwise one open, unmatched request of the caller is appended, with urgency within_7_days by default |
| RequestRoutes.ListRequests | src/routes/requests.ts:59-88 | exactly the listed rows, each as often as stored: the caller's own in the sender view; otherwise those of known senders with the queried status, default open; newest first |
| RequestRoutes.TravelersForRequest | src/routes/requests.ts:116-149 | 404 iff the request is missing; otherwise exactly the trips on its city pair that are active, have a free slot and an approved traveler; ordered by trust score, then average rating, both descending |
| RequestRoutes.MatchVerdict | src/routes/requests.ts:158-180 | 200 iff the caller sends the request, it is open, and the trip belongs to the named traveler with a free slot; 400 iff the caller's request is not open; otherwise 404 |
| RequestRoutes.Match | src/routes/requests.ts:152-206 | on 200 the request is bound to the trip, traveler and tracking code, and that trip alone loses exactly one slot; otherwise nothing changes; non-negative slots stay non-negative |
| RequestRoutes.CancelVerdict | src/routes/requests.ts:214-225 | 200 iff the caller sends the request and it is not picked up, in transit or delivered; 404 iff it is missing or someone else's; otherwise 400 |
| RequestRoutes.Cancel | src/routes/requests.ts:209-241 | on 200 the request is cancelled and its bound trip, if any, regains exactly one slot; payments are never touched; otherwise nothing changes |
| TripRoutes.Capacity | src/routes/trips.ts:44 | a missing or zero capacity means 3; any other value is kept |
| TripRoutes.Create | src/routes/trips.ts:11-52 | 403 for a caller whose role is sender, before the body is read; then 400 for a missing city or date; otherwise one active trip of the caller is appended whose free slots equal its capacity |
| TripRoutes.ListTrips | src/routes/trips.ts:55-68 | exactly the caller's trips, latest departure first |
| TripRoutes.RequestsForTrip | src/routes/trips.ts:93-122 | 404 iff the trip is missing; otherwise exactly the open requests of known senders on its city pair; highest offer first, then newest |
| TripRoutes.ApplyVerdict | src/routes/trips.ts:131-153 | 200 iff the trip is the caller's with free slots other than zero and the request exists and is open; 400 iff the caller's trip has exactly zero slots; otherwise 404 |
| TripRoutes.Apply | src/routes/trips.ts:125-177 | on 200 the request is bound to this trip, the caller and the tracking code, and the trip loses exactly one slot; otherwise nothing changes; non-negative slots stay non-negative |
| BookingRoutes.CarriedBy | src/routes/bookings.ts:15-22 | the request is found iff it exists and the caller is its matched traveler |
| BookingRoutes.ConfirmPickup | src/routes/bookings.ts:10-38 | 404 unless the caller carries the request; 400 unless it is matched; otherwise only its status changes, to picked_up |
| BookingRoutes.UpdateStatus | src/routes/bookings.ts:41-66 | 400 for any status but in_transit, checked first; then 404 unless the caller carries the request; otherwise it becomes in_transit whatever its status was |
| BookingRoutes.Credit | src/routes/bookings.ts:109-118 | both delivery counters rise by one; trust rises by 5 iff it was below 95; it never falls; a score of at most 99 stays at most 99; no other field changes |
| BookingRoutes.RepeatedCredit | src/routes/bookings.ts:109-118 | after n deliveries the counters rose by n, and trust either rose by 5n or reached 95 or more, never passing 99 |
| BookingRoutes.CreditTraveler | src/routes/bookings.ts:109-118 | exactly the rows with the traveler's id receive the credit |
| BookingRoutes.DeliveryVerdict | src/routes/bookings.ts:75-86 | 200 iff the caller carries the request and the given code equals the stored one; 404 iff the caller does not carry it; otherwise 400 |
| BookingRoutes.ConfirmDelivery | src/routes/bookings.ts:69-124 | on 200 the request is delivered, every payment of the request is released, and the caller is credited; otherwise requests, payments and users are unchanged |
| BookingRoutes.Refuse | src/routes/bookings.ts:127-170 | 404 unless the caller carries the request; otherwise, whatever its status, it is cancelled, its bound trip regains one slot and its payments are refunded |
| PaymentRoutes.FeeSplit | src/routes/payments.ts:43-45 | the fee is 15% of the total, the payout 85%, and they sum to the total |
| PaymentRoutes.NewPayment | src/routes/payments.ts:52-63 | the new row is for the request and its matched traveler, at the offered amount, with the split holding and both statuses pending |
| PaymentRoutes.InitiateVerdict | src/routes/payments.ts:19-40 | 200 iff the caller sends the request, it is matched, and no payment of it exists; 404 iff it is missing or someone else's; otherwise 400 |
| PaymentRoutes.Initiate | src/routes/payments.ts:11-113 | once the guards pass, exactly one pending payment is appended before the provider is asked; the reply is 200 or 500 as the provider answers, and the row stays either way |
| PaymentRoutes.MarkHeld | src/routes/payments.ts:146-153 | every payment with the reference is held with the provider id recorded; all others are unchanged; the ledger columns are kept |
| PaymentRoutes.Webhook | src/routes/payments.ts:116-160 | 500 iff the charge is completed and successful and the verification call throws; 200 otherwise; payments are marked held only for a completed, successful charge that the provider confirms; otherwise nothing changes |
| PaymentRoutes.PaymentStatus | src/routes/payments.ts:163-183 | the payment and its request's status are returned iff the payment exists, the caller is its sender or traveler, and its request exists; otherwise 404 |
| PaymentRoutes.PayoutVerdict | src/routes/payments.ts:192-207 | 200 iff the caller is the payment's traveler, escrow is released and the payout is not completed; 404 iff the payment is missing or someone else's; otherwise 400 |
| PaymentRoutes.StartPayoutKeepsLedger | src/routes/payments.ts:234-241 | moving one payout to processing leaves every ledger column of every payment as it was |
| PaymentRoutes.Payout | src/routes/payments.ts:186-253 | a provider that accepts sets that payment's payout to processing and records the transfer id; a refusing provider and any guard failure change nothing |
| ReviewRoutes.Direction | src/routes/reviews.ts:39-51 | the sender reviews the matched traveler; the matched traveler reviews the sender; the sender check comes first; nobody else reviews |
| ReviewRoutes.PriorReview | src/routes/reviews.ts:53-59 | finds nothing iff the reviewer has not reviewed the request |
| ReviewRoutes.SubmitVerdict | src/routes/reviews.ts:15-63 | 201 iff the fields are given, the rating is within 1..5, the request exists and is delivered, the caller is a party, and there is no earlier review; 404 iff only the request is missing; 403 iff only the party check fails |
| ReviewRoutes.RatingsAre | src/routes/reviews.ts:77-80 | the ratings averaged for a user are the ratings of the reviews filtered as received by that user, one for one and in table order, so each received review counts exactly once |
| ReviewRoutes.SumBounds | src/routes/reviews.ts:77-80 | n ratings within 1..5 sum to between n and 5n |
| ReviewRoutes.MeanBounds | src/routes/reviews.ts:77-85 | the mean of ratings within 1..5 is within 1..5 |
| ReviewRoutes.NewAverage | src/routes/reviews.ts:76-85 | after a new review, the reviewee's mean is the old total plus the new rating, over one more review |
| ReviewRoutes.SetAverage | src/routes/reviews.ts:82-85 | exactly the rows with the user's id get the new average |
| ReviewRoutes.SetUserAverage | src/routes/reviews.ts:82-85 | exactly the user's rows get the new average, and the table invariant is kept |
| ReviewRoutes.Record | src/routes/reviews.ts:65-85 | appends the review and sets the reviewee's average to the mean of all their ratings, which is the old total plus the new rating over one more review; keeps ratings in range and one review per reviewer and request; the mean stays within 1..5 |
| ReviewRoutes.Submit | src/routes/reviews.ts:11-91 | the reply follows SubmitVerdict; on 201 the review of the counterpart is recorded; otherwise nothing changes |
| ReviewRoutes.AppendKeepsRatingsInRange | src/routes/reviews.ts:68-74 | inserting a rating within 1..5 keeps every stored rating within 1..5 |
| ReviewRoutes.AppendKeepsOneReviewEach | src/routes/reviews.ts:53-74 | inserting after the duplicate check keeps one review per reviewer and request |
| ReviewRoutes.AverageStaysInRange | src/routes/reviews.ts:76-85 | with all ratings within 1..5, the reviewee's recomputed average is within 1..5 |
| ReviewRoutes.ReviewsFor | src/routes/reviews.ts:94-112 | exactly the reviews the user received from known reviewers, newest first |
| ChatRoutes.Receiver | src/routes/chat.ts:71-74 | the matched traveler when the sender writes, the sender otherwise; a participant only writes to themself as both sender and traveler |
| ChatRoutes.Messages | src/routes/chat.ts:11-44 | 404 iff the request is missing; 403 for anyone but its sender and matched traveler; otherwise exactly its messages by known authors, oldest first |
| ChatRoutes.SendVerdict | src/routes/chat.ts:53-69 | 400 iff the text is empty, checked first; then 404 iff the request is missing; 201 iff the request exists and the caller takes part in it; 403 otherwise |
| ChatRoutes.Send | src/routes/chat.ts:47-90 | on 201 exactly one unread message from the caller to the other party is appended; otherwise nothing changes |
| ChatRoutes.MarkedRead | src/routes/chat.ts:98-105 | afterwards none of the caller's messages on the request is unread, and each that was unread is stamped read at `now`; messages that were not unread are unchanged; only read_at ever changes |
| ChatRoutes.MarkedReadIdempotent | src/routes/chat.ts:98-105 | marking read again, at any later time, changes nothing |
| ChatRoutes.MarkRead | src/routes/chat.ts:93-108 | always 200, with the messages marked read as MarkedRead states |
| Store.ShiftSlots | src/routes/requests.ts:197-200 | exactly the rows with the trip's id change their free slots by delta |
| Store.SetEscrow | src/routes/bookings.ts:99-106 | exactly the payments of the request get the new escrow status; the ledger columns are kept |
| Store.RestoreUndoesTake | src/routes/requests.ts:232-238 | giving a slot back to the trip it was taken from restores the trips exactly |
| Store.TakeSlotKeepsNonNegative | src/routes/requests.ts:173-200 | taking one slot from a trip that has one keeps every counter non-negative |
| Lifecycle.MatchRoute | src/routes/requests.ts:152-206 | an authentication or verification failure answers and changes nothing; an active, approved caller gets the match verdict; on 200 the request is bound and that trip loses exactly one slot; on any other reply nothing changes |
| Lifecycle.WebhookRoute | src/routes/payments.ts:8-160 | a callback without a valid bearer token of an active user is answered 401 or 403 and no payment is marked held |
| Lifecycle.MatchThenCancel | src/routes/requests.ts:152-241 | a successful match followed by a cancel answers 200 twice, leaves the request cancelled and the trips exactly as before |
| Lifecycle.CancelTwice | src/routes/requests.ts:209-241 | cancelling a matched request twice passes the guard both times, and its trip regains two slots |
| Lifecycle.RefuseThenConfirm | src/routes/bookings.ts:69-170 | after a refusal the traveler can still confirm delivery: the request ends delivered and its payments are refunded, then released |

## Left out

- The server-rendered pages and browser script of src/index.tsx are not
  modelled; they are presentation only.
- The cryptography of src/utils/auth.ts is not modelled: hashing, token signing
  and encoding, and id, OTP and tracking-code generation. The password hash and
  the token check are the parameters `hash` and `verify`; ids, codes and times
  are inputs.
- The payment provider's HTTP calls are not modelled. Only their outcome
  enters, as `providerOk` and `verification`. In initiate and payout, a call that
  throws is caught and answered like a refusal. In the webhook it is not caught,
  and `verification` = None answers 500.
- PaymentRoutes.Webhook: a callback that is a completed, successful charge but
  has no `data` object throws in the source and answers 500. The model takes the
  charge fields as given strings, so it cannot express that payload.
- Timestamp columns are not modelled, except `created_at` (which orders the
  listings), `read_at` and `last_login_at`.
- The 500 answer when no database is bound is not modelled.
- Each handler is one atomic step. The races between its separate statements,
  and between concurrent requests for a trip's last slot, are not modelled.
- The mock OTP endpoint (src/routes/auth.ts:129-139) is not modelled: it always
  answers 200 and touches nothing.
- GET /requests/:id and GET /trips/:id are not modelled: they are plain reads.
- The display columns that the listing joins add (names, phones, trust scores)
  are not modelled. The inner joins are modelled, as "the joined user exists".
- The webhook's signature check is commented out in the source, so there is
  nothing to model.
- Amounts are exact `real`s, while the source computes the fee in
  floating point.
- Unmodelled columns take their schema defaults. The new user's baseline trust
  score is an input.
- BookingRoutes.DeliveryVerdict: compares tracking codes as numbers. The source
  stores the code as text and compares it strictly with the body's value, so a
  code sent as a JSON number is refused there.
- RequestRoutes.Create: takes urgency as an already parsed value. The source
  stores any non-empty urgency string unchecked.
- TripRoutes.Create: takes the dates as integers and does not model the date
  strings themselves.
- PaymentRoutes.Initiate: a missing payment method is the empty string.
