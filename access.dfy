/** The access guards of src/middleware/auth.ts: bearer-header parsing, the
    authentication chain that loads the caller's row, and the role and
    verification predicates that later middleware applies to that caller. */
module Access {
  import opened Types
  import opened Tables

  /** What a token's signature check yields: the claims it carries. */
  datatype Claims = Claims(userId: Id, role: Role, iat: int, exp: int)

  /** The outcome of one middleware step: continue to the next handler, or answer now. */
  datatype Verdict = Next | Halt(reply: Reply)

  const BearerPrefix: string := "Bearer "

  /** The token of an `Authorization` header: present only when the header starts
      with "Bearer ", and then the header with those 7 characters removed. */
  function BearerToken(header: Option<string>): (token: Option<string>)
    ensures token.Some? <==> header.Some? && |header.value| >= 7 && header.value[..7] == "Bearer "
    ensures token.Some? ==> header.value == "Bearer " + token.value
  {
    if header.Some? && |header.value| >= |BearerPrefix| && header.value[..|BearerPrefix|] == BearerPrefix
    then Some(header.value[|BearerPrefix|..])
    else None
  }

  /** Prefixing a token with "Bearer " gives a header that yields exactly that token. */
  lemma BearerRoundTrip(token: string)
    ensures BearerToken(Some("Bearer " + token)) == Some(token)
  {
    assert ("Bearer " + token)[..7] == "Bearer ";
    assert ("Bearer " + token)[7..] == token;
  }

  /** authMiddleware: a missing or non-bearer header, a token whose check fails and
      an unknown user all answer 401; a known user whose account is not active
      answers 403; only an active user reaches the next handler, as its own row.
      `verify` stands for the signature and expiry check of the token. */
  function Authenticate(users: seq<User>, header: Option<string>, verify: string -> Option<Claims>)
    : (r: Result<User>)
    ensures r.Success? <==>
              && BearerToken(header).Some?
              && verify(BearerToken(header).value).Some?
              && Lookup(users, UserKey, verify(BearerToken(header).value).value.userId).Some?
              && Lookup(users, UserKey, verify(BearerToken(header).value).value.userId).value.accountStatus.Active?
    ensures r.Success? ==> r.value in users && r.value.accountStatus.Active?
                           && r.value.id == verify(BearerToken(header).value).value.userId
    ensures r.Failure? ==> r.reply == Unauthorized || r.reply == Forbidden
    ensures r == Failure(Forbidden) <==>
              && BearerToken(header).Some? && verify(BearerToken(header).value).Some?
              && Lookup(users, UserKey, verify(BearerToken(header).value).value.userId).Some?
              && !Lookup(users, UserKey, verify(BearerToken(header).value).value.userId).value.accountStatus.Active?
  {
    match BearerToken(header)
    case None => Failure(Unauthorized)
    case Some(token) =>
      match verify(token)
      case None => Failure(Unauthorized)
      case Some(claims) =>
        match Lookup(users, UserKey, claims.userId)
        case None => Failure(Unauthorized)
        case Some(u) => if u.accountStatus.Active? then Success(u) else Failure(Forbidden)
  }

  /** requireRole: no caller answers 401; a caller of role `both` always passes,
      any other caller passes iff its role is one of `allowed`, and otherwise 403. */
  function RequireRole(user: Option<User>, allowed: seq<Role>): (v: Verdict)
    ensures user.None? ==> v == Halt(Unauthorized)
    ensures user.Some? ==> (v == Next <==> user.value.role.Both? || user.value.role in allowed)
    ensures user.Some? && v != Next ==> v == Halt(Forbidden)
  {
    if user.None? then Halt(Unauthorized)
    else if user.value.role.Both? || user.value.role in allowed then Next
    else Halt(Forbidden)
  }

  /** requireVerified: no caller answers 401; a caller passes iff its identity
      verification is approved, and otherwise 403. */
  function RequireVerified(user: Option<User>): (v: Verdict)
    ensures user.None? ==> v == Halt(Unauthorized)
    ensures user.Some? ==> (v == Next <==> user.value.verification.Approved?)
    ensures user.Some? && v != Next ==> v == Halt(Forbidden)
  {
    if user.None? then Halt(Unauthorized)
    else if user.value.verification.Approved? then Next
    else Halt(Forbidden)
  }

  /** The middleware chain of a route: authMiddleware, then requireVerified on the
      routes that carry it. Whoever gets through is an active user of the table,
      and an approved one where verification is required. */
  function Admit(users: seq<User>, header: Option<string>, verify: string -> Option<Claims>, verified: bool)
    : (r: Result<User>)
    ensures r.Success? ==> r.value in users && r.value.accountStatus.Active?
    ensures r.Success? && verified ==> r.value.verification.Approved?
    ensures !verified ==> r == Authenticate(users, header, verify)
    ensures Authenticate(users, header, verify).Failure? ==> r == Authenticate(users, header, verify)
    ensures Authenticate(users, header, verify).Success? ==>
              var u := Authenticate(users, header, verify).value;
              r == if !verified || u.verification.Approved? then Success(u) else Failure(Forbidden)
  {
    match Authenticate(users, header, verify)
    case Failure(reply) => Failure(reply)
    case Success(u) =>
      if !verified then Success(u)
      else
        match RequireVerified(Some(u))
        case Next => Success(u)
        case Halt(reply) => Failure(reply)
  }
}
