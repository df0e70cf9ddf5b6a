/** The account routes of src/routes/auth.ts: signup validation and uniqueness,
    the login check order with its last-login stamp and token lifetime, and the
    profile route that reads the bearer token itself. The password hash and the
    token check are inputs (`hash`, `verify`). */
module AuthRoutes {
  import opened Types
  import opened Tables
  import opened Store
  import opened Access

  /** Seven days, in seconds. */
  const TokenLifetime: int := 7 * 24 * 60 * 60

  /** The role named by a signup body, if it is one of the three. */
  function RoleFromName(s: string): (r: Option<Role>)
    ensures r.Some? <==> s == "sender" || s == "traveler" || s == "both"
    ensures r.Some? ==> RoleName(r.value) == s
  {
    if s == "sender" then Some(Sender)
    else if s == "traveler" then Some(Traveler)
    else if s == "both" then Some(Both)
    else None
  }

  /** Every role's wire name reads back as that role. */
  lemma RoleNameRoundTrip(role: Role)
    ensures RoleFromName(RoleName(role)) == Some(role)
  {
  }

  /** The row signup inserts; every other column takes its schema default. */
  function NewUser(id: Id, email: string, phone: string, passwordHash: string, fullName: string,
                   role: Role, baselineTrust: int): User
  {
    User(id, email, phone, passwordHash, fullName, role, VerificationStatus.Pending, AccountStatus.Active,
         baselineTrust, 0, 0, 0.0, None)
  }

  /** Signup's answer: 400 for a missing field, then 400 for a role outside the
      three, then 409 when some user already has the email or the phone. */
  function SignupVerdict(users: seq<User>, email: string, phone: string, password: string,
                         fullName: string, role: string): (reply: Reply)
    ensures reply == Created <==>
              && Given(email) && Given(phone) && Given(password) && Given(fullName)
              && RoleFromName(role).Some?
              && forall u :: u in users ==> u.email != email && u.phone != phone
    ensures reply == Conflict <==>
              && Given(email) && Given(phone) && Given(password) && Given(fullName)
              && RoleFromName(role).Some?
              && exists u :: u in users && (u.email == email || u.phone == phone)
    ensures reply == Created || reply == Conflict || reply == BadRequest
  {
    if !Given(email) || !Given(phone) || !Given(password) || !Given(fullName) || !Given(role) then BadRequest
    else if RoleFromName(role).None? then BadRequest
    else if exists u :: u in users && (u.email == email || u.phone == phone) then Conflict
    else Created
  }

  /** POST /signup: inserts one user holding `hash(password)` when the body is
      valid and neither the email nor the phone is taken, and nothing otherwise. */
  method Signup(db: Database, email: string, phone: string, password: string, fullName: string,
                role: string, hash: string -> string, userId: Id, baselineTrust: int)
    returns (reply: Reply)
    requires db.Valid()
    requires Lookup(db.users, UserKey, userId).None?
    modifies db`users
    ensures db.Valid()
    ensures reply == SignupVerdict(old(db.users), email, phone, password, fullName, role)
    ensures reply != Created ==> db.users == old(db.users)
    ensures reply == Created ==>
              db.users == old(db.users) +
                [NewUser(userId, email, phone, hash(password), fullName, RoleFromName(role).value, baselineTrust)]
  {
    reply := SignupVerdict(db.users, email, phone, password, fullName, role);
    if reply == Created {
      var row := NewUser(userId, email, phone, hash(password), fullName, RoleFromName(role).value, baselineTrust);
      InsertFresh(db.users, UserKey, row);
      db.users := db.users + [row];
    }
  }

  /** The first user registered with the email, as the login lookup finds it. */
  function UserByEmail(users: seq<User>, email: string): (r: Option<User>)
    ensures r.Some? ==> r.value in users && r.value.email == email
    ensures r.None? <==> forall u :: u in users ==> u.email != email
  {
    First(users, (u: User) => u.email == email)
  }

  /** Login's checks in their order: 400 without email or password; 401 alike for
      an unknown email and for a wrong password; 403 for an account that is not
      active, which is answered only to a caller whose password matched. */
  function CheckCredentials(users: seq<User>, email: string, password: string, hash: string -> string)
    : (r: Result<User>)
    ensures r.Success? ==> && r.value in users && r.value.email == email
                           && r.value.passwordHash == hash(password) && r.value.accountStatus.Active?
    ensures r == Failure(BadRequest) <==> !Given(email) || !Given(password)
    ensures r == Failure(Forbidden) ==>
              exists u :: u in users && u.email == email && u.passwordHash == hash(password)
                          && !u.accountStatus.Active?
    ensures Given(email) && Given(password) && UserByEmail(users, email).None? ==> r == Failure(Unauthorized)
    ensures (Given(email) && Given(password) && UserByEmail(users, email).Some?
             && UserByEmail(users, email).value.passwordHash != hash(password)) ==> r == Failure(Unauthorized)
    ensures (Given(email) && Given(password) && UserByEmail(users, email).Some?
             && UserByEmail(users, email).value.passwordHash == hash(password)) ==>
              var u := UserByEmail(users, email).value;
              r == if u.accountStatus.Active? then Success(u) else Failure(Forbidden)
    ensures r.Failure? ==> r.reply in {BadRequest, Unauthorized, Forbidden}
  {
    if !Given(email) || !Given(password) then Failure(BadRequest)
    else
      match UserByEmail(users, email)
      case None => Failure(Unauthorized)
      case Some(u) =>
        if hash(password) != u.passwordHash then Failure(Unauthorized)
        else if !u.accountStatus.Active? then Failure(Forbidden)
        else Success(u)
  }

  /** The claims of the token issued at `now` seconds: it expires seven days later. */
  function IssueClaims(u: User, now: int): (c: Claims)
    ensures c.userId == u.id && c.role == u.role
    ensures c.iat == now && c.exp == now + 604800
  {
    Claims(u.id, u.role, now, now + TokenLifetime)
  }

  /** POST /login: only a successful login stamps `last_login_at` on that user and
      returns token claims; every failure leaves the users untouched. */
  method Login(db: Database, email: string, password: string, hash: string -> string, now: nat)
    returns (reply: Reply, claims: Option<Claims>)
    requires db.Valid()
    modifies db`users
    ensures db.Valid()
    ensures var r := CheckCredentials(old(db.users), email, password, hash);
            reply == (if r.Success? then Ok else r.reply)
    ensures reply != Ok ==> db.users == old(db.users) && claims.None?
    ensures reply == Ok ==>
              var u := CheckCredentials(old(db.users), email, password, hash).value;
              && claims == Some(IssueClaims(u, now))
              && db.users == Replace(old(db.users), UserKey, u.(lastLoginAt := Some(now)))
  {
    match CheckCredentials(db.users, email, password, hash)
    case Failure(r) =>
      reply, claims := r, None;
    case Success(u) =>
      ReplaceKeepsKeys(db.users, UserKey, u.(lastLoginAt := Some(now)));
      db.users := Replace(db.users, UserKey, u.(lastLoginAt := Some(now)));
      reply, claims := Ok, Some(IssueClaims(u, now));
  }

  /** GET /me: 401 for a missing or non-bearer header and for a token that fails its
      check, 404 (not 401) for an unknown user, and otherwise that user's row;
      unlike authMiddleware it does not look at the account status. */
  function Me(users: seq<User>, header: Option<string>, verify: string -> Option<Claims>): (r: Result<User>)
    ensures r.Success? <==>
              && BearerToken(header).Some? && verify(BearerToken(header).value).Some?
              && Lookup(users, UserKey, verify(BearerToken(header).value).value.userId).Some?
    ensures r.Success? ==> r.value in users && r.value.id == verify(BearerToken(header).value).value.userId
    ensures r == Failure(NotFound) <==>
              && BearerToken(header).Some? && verify(BearerToken(header).value).Some?
              && Lookup(users, UserKey, verify(BearerToken(header).value).value.userId).None?
    ensures r.Failure? ==> r.reply == Unauthorized || r.reply == NotFound
  {
    match BearerToken(header)
    case None => Failure(Unauthorized)
    case Some(token) =>
      match verify(token)
      case None => Failure(Unauthorized)
      case Some(claims) =>
        match Lookup(users, UserKey, claims.userId)
        case None => Failure(NotFound)
        case Some(u) => Success(u)
  }

  /** A suspended or banned user still reads their profile through /me, while
      authMiddleware refuses them on every other route. */
  lemma MeIgnoresAccountStatus(users: seq<User>, header: Option<string>, verify: string -> Option<Claims>)
    requires Authenticate(users, header, verify) == Failure(Forbidden)
    ensures Me(users, header, verify).Success?
    ensures !Me(users, header, verify).value.accountStatus.Active?
  {
  }
}
