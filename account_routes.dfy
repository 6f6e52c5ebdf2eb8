/** The four handlers of routes/account.js as decision procedures: each takes
    the collaborators' answers for the request and yields the store calls it
    makes and the one response it sends. */
module AccountRoutes {
  import opened Domain

  /** Whom a bearer token resolves to, admin first: an admin, a user session,
      a failure of the admin store other than not-found, or a failure of the
      user session lookup that followed a not-found. */
  datatype Principal =
    | Admin
    | User(session: Session)
    | AdminLookupFailed(error: StoreError)
    | SessionLookupFailed(error: StoreError)

  datatype Resolution = Resolution(calls: seq<Call>, principal: Principal)

  /** The admin-first, user-fallback resolution shared by get-account,
      destroy-account and get-profile. */
  function Resolve(c: Collaborators, token: Token, inclusion: Option<string>): (r: Resolution)
    ensures 1 <= |r.calls| <= 2 && r.calls[0] == ValidateAdminSession(token)
    // a valid admin session wins over everything else
    ensures r.principal.Admin? <==> c.validateSession(token).AdminOk?
    // only a not-found admin error leads to the user session store, with the same token
    ensures |r.calls| == 2 <==> c.validateSession(token).AdminErr? && c.validateSession(token).error.name == NotFoundName
    ensures |r.calls| == 2 ==> r.calls[1] == FindSession(token, inclusion)
    // any other admin error is kept as it is
    ensures r.principal.AdminLookupFailed? <==> c.validateSession(token).AdminErr? && c.validateSession(token).error.name != NotFoundName
    ensures r.principal.AdminLookupFailed? ==> c.validateSession(token) == AdminErr(r.principal.error)
    // the user session store's answer decides the rest
    ensures r.principal.User? ==> |r.calls| == 2 && c.findSession(token, inclusion) == SessionOk(r.principal.session)
    ensures r.principal.SessionLookupFailed? ==> |r.calls| == 2 && c.findSession(token, inclusion) == SessionErr(r.principal.error)
  {
    var validate := [ValidateAdminSession(token)];
    match c.validateSession(token)
    case AdminOk => Resolution(validate, Admin)
    case AdminErr(e) =>
      if e.name != NotFoundName then Resolution(validate, AdminLookupFailed(e))
      else
        var calls := validate + [FindSession(token, inclusion)];
        match c.findSession(token, inclusion)
        case SessionOk(s) => Resolution(calls, User(s))
        case SessionErr(e') => Resolution(calls, SessionLookupFailed(e'))
  }

  /** True when the admin store answered not-found for the token. */
  predicate AdminNotFound(c: Collaborators, token: Token)
  {
    c.validateSession(token).AdminErr? && c.validateSession(token).error.name == NotFoundName
  }

  /** PUT /session/account: sign-up, with no admin or session lookup. */
  function SignUp(c: Collaborators, username: string, password: string, id: Option<string>, q: Query): (h: Handled)
    // the one store call is accounts.add with the payload's fields and the query's include
    ensures h.calls == [AddAccount(NewAccount(username, password, q.inclusion, id))]
    ensures h.response.Reply? <==> c.addAccount(NewAccount(username, password, q.inclusion, id)).AccountOk?
    ensures h.response.Reply? ==>
      h.response == Reply(CreatedCode, Json(c.serialiseAccount(c.addAccount(NewAccount(username, password, q.inclusion, id)).account)))
    // a failure carries the parsed status, or 400 when it has none
    ensures h.response.Boom? ==>
      var e := Store(c.addAccount(NewAccount(username, password, q.inclusion, id)).error);
      h.response.status == Some(StatusOr400(c.parse(e).status)) && h.response.message == c.parse(e).message
  {
    var fields := NewAccount(username, password, q.inclusion, id);
    var response :=
      match c.addAccount(fields)
      case AccountOk(a) => Reply(CreatedCode, Json(c.serialiseAccount(a)))
      case AccountErr(e) =>
        var parsed := c.parse(Store(e));
        Boom(Some(StatusOr400(parsed.status)), parsed.message);
    Handled([AddAccount(fields)], response)
  }

  /** GET /session/account. */
  function GetAccount(c: Collaborators, token: Token, q: Query): (h: Handled)
    ensures 1 <= |h.calls| <= 2 && h.calls[0] == ValidateAdminSession(token)
    // an admin token is always refused, before any session lookup
    ensures c.validateSession(token).AdminOk? ==>
      h == Handled([ValidateAdminSession(token)], BoomOf(c, ForbiddenAdminAccount))
    // an admin store failure other than not-found is surfaced verbatim, without fallback
    ensures c.validateSession(token).AdminErr? && !AdminNotFound(c, token) ==>
      h == Handled([ValidateAdminSession(token)], BoomOf(c, Store(c.validateSession(token).error)))
    // after not-found the session is looked up with the query's include directive
    ensures AdminNotFound(c, token) ==> h.calls == [ValidateAdminSession(token), FindSession(token, SessionIncludeFor(q))]
    ensures h.response.Reply? <==> AdminNotFound(c, token) && c.findSession(token, SessionIncludeFor(q)).SessionOk?
    ensures h.response.Reply? ==>
      h.response == Reply(DefaultCode, Json(c.serialiseAccount(c.findSession(token, SessionIncludeFor(q)).session.account)))
    // a failed session lookup keeps the store's status, with no default
    ensures AdminNotFound(c, token) && c.findSession(token, SessionIncludeFor(q)).SessionErr? ==>
      h.response == BoomOf(c, Store(c.findSession(token, SessionIncludeFor(q)).error))
  {
    var r := Resolve(c, token, SessionIncludeFor(q));
    var response :=
      match r.principal
      case Admin => BoomOf(c, ForbiddenAdminAccount)
      case AdminLookupFailed(e) => BoomOf(c, Store(e))
      case SessionLookupFailed(e) => BoomOf(c, Store(e))
      case User(s) => Reply(DefaultCode, Json(c.serialiseAccount(s.account)));
    Handled(r.calls, response)
  }

  /** DELETE /session/account. */
  function DestroyAccount(c: Collaborators, token: Token, q: Query): (h: Handled)
    ensures 1 <= |h.calls| <= 3 && h.calls[0] == ValidateAdminSession(token)
    ensures c.validateSession(token).AdminOk? ==>
      h == Handled([ValidateAdminSession(token)], BoomOf(c, ForbiddenAdminAccount))
    ensures c.validateSession(token).AdminErr? && !AdminNotFound(c, token) ==>
      h == Handled([ValidateAdminSession(token)], BoomOf(c, Store(c.validateSession(token).error)))
    ensures AdminNotFound(c, token) ==> |h.calls| >= 2 && h.calls[1] == FindSession(token, SessionIncludeFor(q))
    ensures AdminNotFound(c, token) && c.findSession(token, SessionIncludeFor(q)).SessionErr? ==>
      h == Handled([ValidateAdminSession(token), FindSession(token, SessionIncludeFor(q))],
                   BoomOf(c, Store(c.findSession(token, SessionIncludeFor(q)).error)))
    // exactly the resolved session's account is removed, with the query's include
    ensures |h.calls| == 3 <==> AdminNotFound(c, token) && c.findSession(token, SessionIncludeFor(q)).SessionOk?
    ensures |h.calls| == 3 ==>
      h.calls[2] == RemoveAccount(c.findSession(token, SessionIncludeFor(q)).session.account, q.inclusion)
    // a removal failure keeps the store's status
    ensures |h.calls| == 3 && c.removeAccount(h.calls[2].account, q.inclusion).AccountErr? ==>
      h.response == BoomOf(c, Store(c.removeAccount(h.calls[2].account, q.inclusion).error))
    // success: 200 with the removed account when include is truthy, else 204 and no body
    ensures h.response.Reply? <==> |h.calls| == 3 && c.removeAccount(h.calls[2].account, q.inclusion).AccountOk?
    ensures h.response.Reply? ==>
      if Truthy(q.inclusion)
      then h.response == Reply(OkCode, Json(c.serialiseAccount(c.removeAccount(h.calls[2].account, q.inclusion).account)))
      else h.response == Reply(NoContentCode, NoBody)
  {
    var r := Resolve(c, token, SessionIncludeFor(q));
    match r.principal
    case Admin => Handled(r.calls, BoomOf(c, ForbiddenAdminAccount))
    case AdminLookupFailed(e) => Handled(r.calls, BoomOf(c, Store(e)))
    case SessionLookupFailed(e) => Handled(r.calls, BoomOf(c, Store(e)))
    case User(s) =>
      var calls := r.calls + [RemoveAccount(s.account, q.inclusion)];
      match c.removeAccount(s.account, q.inclusion)
      case AccountErr(e) => Handled(calls, BoomOf(c, Store(e)))
      case AccountOk(removed) =>
        if Truthy(q.inclusion) then Handled(calls, Reply(OkCode, Json(c.serialiseAccount(removed))))
        else Handled(calls, Reply(NoContentCode, NoBody))
  }

  /** GET /session/account/profile. A user session lookup that fails with a
      status other than 404 is swallowed, so the handler goes on without a
      session and fails on reading its account (`TypeFault`). */
  function GetAccountProfile(c: Collaborators, token: Token): (h: Handled)
    ensures 1 <= |h.calls| <= 2 && h.calls[0] == ValidateAdminSession(token)
    ensures c.validateSession(token).AdminOk? ==>
      h == Handled([ValidateAdminSession(token)], BoomOf(c, ForbiddenAdminAccount))
    ensures c.validateSession(token).AdminErr? && !AdminNotFound(c, token) ==>
      h == Handled([ValidateAdminSession(token)], BoomOf(c, Store(c.validateSession(token).error)))
    // the profile is always requested
    ensures AdminNotFound(c, token) ==> h.calls == [ValidateAdminSession(token), FindSession(token, Some(ProfileInclude))]
    ensures h.response.Reply? <==> AdminNotFound(c, token) && c.findSession(token, Some(ProfileInclude)).SessionOk?
    ensures h.response.Reply? ==>
      h.response == Reply(DefaultCode, Json(c.serialiseProfile(c.findSession(token, Some(ProfileInclude)).session.account)))
    // a 404 lookup becomes NO_ACTIVE_SESSION; any other lookup error leaves no session value
    ensures AdminNotFound(c, token) && c.findSession(token, Some(ProfileInclude)).SessionErr? ==>
      h.response == BoomOf(c, if c.findSession(token, Some(ProfileInclude)).error.status == Some(NotFoundStatus)
                              then NoActiveSession else TypeFault)
  {
    var r := Resolve(c, token, Some(ProfileInclude));
    var response :=
      match r.principal
      case Admin => BoomOf(c, ForbiddenAdminAccount)
      case AdminLookupFailed(e) => BoomOf(c, Store(e))
      case SessionLookupFailed(e) =>
        if e.status == Some(NotFoundStatus) then BoomOf(c, NoActiveSession) else BoomOf(c, TypeFault)
      case User(s) => Reply(DefaultCode, Json(c.serialiseProfile(s.account)));
    Handled(r.calls, response)
  }
}
