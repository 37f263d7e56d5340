/** The request gates: authentication from the session token, then the admin
    and subscriber authorizations over the authenticated user. */
module Auth {
  import opened Domain

  /** `isAuthenticated`: a missing token fails with 401; otherwise the token
      is decoded (the signature check is the abstract `decode`) and the request's
      user is the document whose id the token carries, or none when no such
      document exists. */
  function IsAuthenticated(token: Option<string>, decode: string -> Option<UserId>,
                           users: map<UserId, User>): (r: Result<Option<User>>)
    ensures !Present(token) ==> r == Err(Http(401))
    ensures Present(token) && decode(token.value).None? ==> r == Err(BadToken)
    ensures Present(token) && decode(token.value).Some? ==>
      var id := decode(token.value).value;
      r.Ok? && (r.value.Some? <==> id in users) && (id in users ==> r.value.value == users[id])
  {
    if !Present(token) then Err(Http(401))
    else match decode(token.value)
      case None => Err(BadToken)
      case Some(id) => Ok(if id in users then Some(users[id]) else None)
  }

  /** `authorizeAdmin`: passes exactly for an admin, fails with 403 for any other
      role; a request whose user was not found throws on reading the role. */
  function AuthorizeAdmin(user: Option<User>): (r: Outcome)
    ensures r == Pass <==> user.Some? && user.value.role == ADMIN
    ensures user.Some? && user.value.role != ADMIN ==> r == Fail(Http(403))
    ensures user.None? ==> r == Fail(NullAccess)
  {
    match user
    case None => Fail(NullAccess)
    case Some(u) => if u.role != ADMIN then Fail(Http(403)) else Pass
  }

  /** `authorizeSubscribers`: passes exactly for an active subscriber or an
      admin, fails with 403 otherwise. */
  function AuthorizeSubscribers(user: Option<User>): (r: Outcome)
    ensures r == Pass <==> user.Some? && (user.value.subscription.status == Some(ACTIVE) || user.value.role == ADMIN)
    ensures user.Some? && user.value.subscription.status != Some(ACTIVE) && user.value.role != ADMIN ==>
      r == Fail(Http(403))
    ensures user.None? ==> r == Fail(NullAccess)
  {
    match user
    case None => Fail(NullAccess)
    case Some(u) =>
      if u.subscription.status != Some(ACTIVE) && u.role != ADMIN then Fail(Http(403)) else Pass
  }

  /** Every request an admin route admits, a subscriber route admits too. */
  lemma AdminPassesSubscribers(user: Option<User>)
    requires AuthorizeAdmin(user) == Pass
    ensures AuthorizeSubscribers(user) == Pass
  {
  }

  /** The whole gate of a route: authenticate, then apply its guard. */
  function Gate(token: Option<string>, decode: string -> Option<UserId>, users: map<UserId, User>,
                guard: Option<User> -> Outcome): (r: Result<Option<User>>)
    ensures !Present(token) ==> r == Err(Http(401))
    ensures r.Ok? ==> IsAuthenticated(token, decode, users) == r && guard(r.value) == Pass
    ensures IsAuthenticated(token, decode, users).Err? ==> r == IsAuthenticated(token, decode, users)
    ensures IsAuthenticated(token, decode, users).Ok? ==>
      var u := IsAuthenticated(token, decode, users).value;
      && (guard(u) == Pass ==> r == Ok(u))
      && (guard(u).Fail? ==> r == Err(guard(u).error))
  {
    match IsAuthenticated(token, decode, users)
    case Err(e) => Err(e)
    case Ok(u) => if guard(u).Fail? then Err(guard(u).error) else Ok(u)
  }

  /** A request that passes the admin route's gate passes the subscriber
      route's gate too, with the same user. */
  lemma AdminGateImpliesSubscriberGate(token: Option<string>,
      decode: string -> Option<UserId>, users: map<UserId, User>)
    requires Gate(token, decode, users, AuthorizeAdmin).Ok?
    ensures Gate(token, decode, users, AuthorizeSubscribers) == Gate(token, decode, users, AuthorizeAdmin)
  {

  }
}
