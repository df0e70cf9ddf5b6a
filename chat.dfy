/** The per-request chat of src/routes/chat.ts: only the request's sender and its
    matched traveler read or write the thread, a message goes to the other party,
    and a receiver marks their unread messages read. */
module ChatRoutes {
  import opened Types
  import opened Tables
  import opened Store

  /** The request's sender or its matched traveler. */
  predicate Participant(r: DeliveryRequest, userId: Id) {
    userId == r.senderId || r.matchedTravelerId == Some(userId)
  }

  /** The other party of the conversation: the matched traveler (none before a
      match) when the sender writes, the sender otherwise. A participant writes
      to themself only when they are both the sender and the matched traveler. */
  function Receiver(r: DeliveryRequest, senderId: Id): (to: Option<Id>)
    requires Participant(r, senderId)
    ensures to == Some(senderId) ==> r.matchedTravelerId == Some(r.senderId)
    ensures senderId != r.senderId ==> to == Some(r.senderId)
    ensures senderId == r.senderId ==> to == r.matchedTravelerId
  {
    if senderId == r.senderId then r.matchedTravelerId else Some(r.senderId)
  }

  /** Oldest first: the rank negates the time so that a descending order is ascending in time. */
  function SentRank(m: ChatMessage): Rank { Rank(-(m.createdAt as real), 0.0) }

  /** A message of the request whose author is a known user. */
  predicate InThread(us: seq<User>, requestId: Id, m: ChatMessage) {
    m.deliveryRequestId == requestId && Lookup(us, UserKey, m.senderId).Some?
  }

  /** GET /chat/:id/messages: 404 for an unknown request, 403 for anyone but its
      sender and matched traveler; otherwise exactly the request's messages by
      known authors, oldest first. */
  function Messages(us: seq<User>, rs: seq<DeliveryRequest>, ms: seq<ChatMessage>, callerId: Id, requestId: Id)
    : (r: Result<seq<ChatMessage>>)
    ensures r.Success? <==>
              Lookup(rs, RequestKey, requestId).Some? && Participant(Lookup(rs, RequestKey, requestId).value, callerId)
    ensures r == Failure(NotFound) <==> Lookup(rs, RequestKey, requestId).None?
    ensures r.Failure? ==> r.reply == NotFound || r.reply == Forbidden
    ensures r.Success? ==> forall m :: multiset(r.value)[m] == if InThread(us, requestId, m) then multiset(ms)[m] else 0
    ensures r.Success? ==> forall i, j :: 0 <= i < j < |r.value| ==> r.value[i].createdAt <= r.value[j].createdAt
  {
    match Lookup(rs, RequestKey, requestId)
    case None => Failure(NotFound)
    case Some(q) =>
      if !Participant(q, callerId) then Failure(Forbidden)
      else
        var found := Query(ms, (m: ChatMessage) => InThread(us, requestId, m), SentRank);
        Success(found)
  }

  /** Sending's answer: 400 for an empty text, checked before anything else, then
      404 for an unknown request and 403 for a non-participant. */
  function SendVerdict(rs: seq<DeliveryRequest>, callerId: Id, requestId: Id, text: string): (reply: Reply)
    ensures reply == Created <==>
              && Given(text) && Lookup(rs, RequestKey, requestId).Some?
              && Participant(Lookup(rs, RequestKey, requestId).value, callerId)
    ensures reply == BadRequest <==> !Given(text)
    ensures reply == NotFound <==> Given(text) && Lookup(rs, RequestKey, requestId).None?
    ensures reply in {Created, BadRequest, NotFound, Forbidden}
  {
    if !Given(text) then BadRequest
    else
      match Lookup(rs, RequestKey, requestId)
      case None => NotFound
      case Some(q) => if Participant(q, callerId) then Created else Forbidden
  }

  /** POST /chat/:id/messages: on 201 exactly one unread message from the caller to
      the other party is appended; otherwise nothing changes. */
  method Send(db: Database, caller: User, requestId: Id, text: string, messageId: Id, now: nat)
    returns (reply: Reply)
    requires db.Valid()
    requires Lookup(db.messages, MessageKey, messageId).None?
    modifies db`messages
    ensures db.Valid()
    ensures reply == SendVerdict(old(db.requests), caller.id, requestId, text)
    ensures reply != Created ==> db.messages == old(db.messages)
    ensures reply == Created ==>
              var q := Lookup(old(db.requests), RequestKey, requestId).value;
              db.messages == old(db.messages) +
                [ChatMessage(messageId, requestId, caller.id, Receiver(q, caller.id), text, now, None)]
  {
    reply := SendVerdict(db.requests, caller.id, requestId, text);
    if reply != Created {
      return;
    }
    var q := Lookup(db.requests, RequestKey, requestId).value;
    var m := ChatMessage(messageId, requestId, caller.id, Receiver(q, caller.id), text, now, None);
    InsertFresh(db.messages, MessageKey, m);
    db.messages := db.messages + [m];
  }

  /** An unread message of the request addressed to the user. */
  predicate UnreadFor(m: ChatMessage, requestId: Id, userId: Id) {
    m.deliveryRequestId == requestId && m.receiverId == Some(userId) && m.readAt.None?
  }

  /** Stamping read, at `now`, the unread messages of the request addressed to the
      user: afterwards none of the user's messages on the request is unread, a message already read keeps its first read time,
      and every other message is untouched. */
  function MarkedRead(ms: seq<ChatMessage>, requestId: Id, userId: Id, now: nat): (r: seq<ChatMessage>)
    ensures |r| == |ms|
    ensures forall i :: 0 <= i < |ms| ==> !UnreadFor(r[i], requestId, userId)
    ensures forall i :: 0 <= i < |ms| && !UnreadFor(ms[i], requestId, userId) ==> r[i] == ms[i]
    ensures forall i :: 0 <= i < |ms| ==> r[i].(readAt := ms[i].readAt) == ms[i]
    ensures forall i :: 0 <= i < |ms| && UnreadFor(ms[i], requestId, userId) ==> r[i].readAt == Some(now)
  {
    seq(|ms|, i requires 0 <= i < |ms| => if UnreadFor(ms[i], requestId, userId) then ms[i].(readAt := Some(now)) else ms[i])
  }

  /** Marking read a second time, at any moment, changes nothing. */
  lemma MarkedReadIdempotent(ms: seq<ChatMessage>, requestId: Id, userId: Id, now: nat, later: nat)
    ensures MarkedRead(MarkedRead(ms, requestId, userId, now), requestId, userId, later)
            == MarkedRead(ms, requestId, userId, now)
  {
    var once := MarkedRead(ms, requestId, userId, now);
    var twice := MarkedRead(once, requestId, userId, later);
    assert forall i :: 0 <= i < |once| ==> twice[i] == once[i];
  }

  /** PUT /chat/:id/read: always 200, with the caller's unread messages on the
      request stamped read now. Whether the caller takes part in the request is not
      checked. */
  method MarkRead(db: Database, caller: User, requestId: Id, now: nat) returns (reply: Reply)
    requires db.Valid()
    modifies db`messages
    ensures db.Valid()
    ensures reply == Ok
    ensures db.messages == MarkedRead(old(db.messages), requestId, caller.id, now)
  {
    var ms' := MarkedRead(db.messages, requestId, caller.id, now);
    assert forall i :: 0 <= i < |db.messages| ==> ms'[i].id == db.messages[i].id;
    db.messages := ms';
    reply := Ok;
  }
}
