/** The four handlers of routes/account.js transcribed link by link as the
    promise chains they are written as, and the proof that each chain sends
    exactly the reply, after exactly the store calls, that the decision
    procedure of AccountRoutes prescribes. */
module RouteChains {
  import opened Domain
  import opened PromiseChain
  import AccountRoutes

  // The store calls, as the promises they return.

  /** `admins.validateSession(sessionId)`: fulfils with the admin's document. */
  function ValidateAdmin(c: Collaborators, token: Token): Step
  {
    Step([ValidateAdminSession(token)],
         match c.validateSession(token)
         case AdminOk => Fulfilled(AdminDocument)
         case AdminErr(e) => Rejected(Store(e)))
  }

  /** `sessions.find(sessionId, {include: inclusion})`. */
  function FindSessionPromise(c: Collaborators, token: Token, inclusion: Option<string>): Step
  {
    Step([FindSession(token, inclusion)],
         match c.findSession(token, inclusion)
         case SessionOk(s) => Fulfilled(SessionValue(s))
         case SessionErr(e) => Rejected(Store(e)))
  }

  /** `accounts.add(fields)`. */
  function AddPromise(c: Collaborators, fields: NewAccount): Step
  {
    Step([AddAccount(fields)],
         match c.addAccount(fields)
         case AccountOk(a) => Fulfilled(AccountValue(a))
         case AccountErr(e) => Rejected(Store(e)))
  }

  /** `accounts.remove(account, {include: inclusion})`. */
  function RemovePromise(c: Collaborators, account: Account, inclusion: Option<string>): Step
  {
    Step([RemoveAccount(account, inclusion)],
         match c.removeAccount(account, inclusion)
         case AccountOk(a) => Fulfilled(AccountValue(a))
         case AccountErr(e) => Rejected(Store(e)))
  }

  // The callbacks of the chains.

  /** `.then(function (doc) { throw errors.FORBIDDEN_ADMIN_ACCOUNT })` */
  function ThrowForbidden(): Stage
  {
    Then((_: Value) => Thrown(ForbiddenAdminAccount))
  }

  /** The `.catch` that falls back to `sessions.find` on a not-found error and
      rethrows any other. */
  function FallBackToSessions(c: Collaborators, token: Token, inclusion: Option<string>): Stage
  {
    Catch((e: Error) => if IsNotFound(e) then FindSessionPromise(c, token, inclusion) else Thrown(e))
  }

  /** The inner `.catch` of the profile route: a 404 becomes
      NO_ACTIVE_SESSION, and any other error is dropped, so the promise
      fulfils with `undefined`. */
  function SwallowLookupError(): Stage
  {
    Catch((e: Error) => if IsStatus404(e) then Thrown(NoActiveSession) else Resolved(Undefined))
  }

  /** The profile route's fallback, whose session lookup carries its own `.catch`. */
  function FallBackToProfileSession(c: Collaborators, token: Token): Stage
  {
    Catch((e: Error) => if IsNotFound(e) then Run(FindSessionPromise(c, token, Some(ProfileInclude)), [SwallowLookupError()])
               else Thrown(e))
  }

  /** `.then(function (session) { return session.account })`: reading a
      property of `undefined` throws, and an object without `account` gives
      `undefined`. */
  function TakeAccount(): Stage
  {
    Then((v: Value) => match v
              case SessionValue(s) => Resolved(AccountValue(s.account))
              case Undefined => Thrown(TypeFault)
              case _ => Resolved(Undefined))
  }

  /** `.then(serialise)`; a serialiser handed anything but an account is taken
      to throw. */
  function Serialise(serialiser: Account -> Doc): Stage
  {
    Then((v: Value) => match v
              case AccountValue(a) => Resolved(DocumentValue(serialiser(a)))
              case _ => Thrown(TypeFault))
  }

  function BodyOf(v: Value): Body
  {
    match v
    case DocumentValue(d) => Json(d)
    case _ => NoBody
  }

  /** `.then(reply)` (hapi's default code) or `reply(json).code(code)`. */
  function ReplyWith(code: int): Stage
  {
    Then((v: Value) => Resolved(Replied(Reply(code, BodyOf(v)))))
  }

  /** The closing `.catch` of get, destroy and profile:
      `reply(Boom.create(error.status, error.message))` on the parsed error. */
  function ReplyError(c: Collaborators): Stage
  {
    Catch((e: Error) => Resolved(Replied(BoomOf(c, e))))
  }

  /** The closing `.catch` of sign-up, whose status defaults to 400. */
  function ReplySignUpError(c: Collaborators): Stage
  {
    Catch((e: Error) => Resolved(Replied(Boom(Some(StatusOr400(c.parse(e).status)), c.parse(e).message))))
  }

  /** `.then(function (session) { return accounts.remove(session.account, {include: query.include}) })` */
  function RemoveSessionAccount(c: Collaborators, q: Query): Stage
  {
    Then((v: Value) => match v
              case SessionValue(s) => RemovePromise(c, s.account, q.inclusion)
              case _ => Thrown(TypeFault))
  }

  /** The destroy route's reply: 200 with the removed account when the query's
      include is truthy, 204 with no body otherwise. */
  function ReplyRemoved(c: Collaborators, q: Query): Stage
  {
    Then((v: Value) => if Truthy(q.inclusion) then
                (match v
                 case AccountValue(a) => Resolved(Replied(Reply(OkCode, Json(c.serialiseAccount(a)))))
                 case _ => Thrown(TypeFault))
              else Resolved(Replied(Reply(NoContentCode, NoBody))))
  }

  // The handlers.

  function SignUpHandler(c: Collaborators, username: string, password: string, id: Option<string>, q: Query): Step
  {
    Run(AddPromise(c, NewAccount(username, password, q.inclusion, id)),
        [Serialise(c.serialiseAccount), ReplyWith(CreatedCode), ReplySignUpError(c)])
  }

  function GetAccountHandler(c: Collaborators, token: Token, q: Query): Step
  {
    Run(ValidateAdmin(c, token),
        [ThrowForbidden(), FallBackToSessions(c, token, SessionIncludeFor(q)),
         TakeAccount(), Serialise(c.serialiseAccount), ReplyWith(DefaultCode), ReplyError(c)])
  }

  function DestroyAccountHandler(c: Collaborators, token: Token, q: Query): Step
  {
    Run(ValidateAdmin(c, token),
        [ThrowForbidden(), FallBackToSessions(c, token, SessionIncludeFor(q)),
         RemoveSessionAccount(c, q), ReplyRemoved(c, q), ReplyError(c)])
  }

  function GetAccountProfileHandler(c: Collaborators, token: Token): Step
  {
    Run(ValidateAdmin(c, token),
        [ThrowForbidden(), FallBackToProfileSession(c, token),
         TakeAccount(), Serialise(c.serialiseProfile), ReplyWith(DefaultCode), ReplyError(c)])
  }

  /** The promise a handler ends in once it has sent `h.response`. */
  function Sent(h: Handled): Step
  {
    Step(h.calls, Fulfilled(Replied(h.response)))
  }

  // Each chain does what its decision procedure says.

  lemma {:induction false} SignUpHandlerAgrees(c: Collaborators, username: string, password: string, id: Option<string>, q: Query)
    ensures SignUpHandler(c, username, password, id, q) == Sent(AccountRoutes.SignUp(c, username, password, id, q))
  {
    var s := [Serialise(c.serialiseAccount), ReplyWith(CreatedCode), ReplySignUpError(c)];
    var p0 := AddPromise(c, NewAccount(username, password, q.inclusion, id));
    var p1 := Apply(p0, s[0]);
    var p2 := Apply(p1, s[1]);
    var p3 := Apply(p2, s[2]);
    assert Run(p0, s) == Run(p1, s[1..]);
    assert Run(p1, s[1..]) == Run(p2, s[2..]);
    assert Run(p2, s[2..]) == p3;
  }

  lemma {:induction false} GetAccountHandlerAgrees(c: Collaborators, token: Token, q: Query)
    ensures GetAccountHandler(c, token, q) == Sent(AccountRoutes.GetAccount(c, token, q))
  {
    var s := [ThrowForbidden(), FallBackToSessions(c, token, SessionIncludeFor(q)),
              TakeAccount(), Serialise(c.serialiseAccount), ReplyWith(DefaultCode), ReplyError(c)];
    var p0 := ValidateAdmin(c, token);
    var p1 := Apply(p0, s[0]);
    var p2 := Apply(p1, s[1]);
    var p3 := Apply(p2, s[2]);
    var p4 := Apply(p3, s[3]);
    var p5 := Apply(p4, s[4]);
    var p6 := Apply(p5, s[5]);
    assert Run(p0, s) == Run(p1, s[1..]);
    assert Run(p1, s[1..]) == Run(p2, s[2..]);
    assert Run(p2, s[2..]) == Run(p3, s[3..]);
    assert Run(p3, s[3..]) == Run(p4, s[4..]);
    assert Run(p4, s[4..]) == Run(p5, s[5..]);
    assert Run(p5, s[5..]) == p6;
  }

  lemma {:induction false} DestroyAccountHandlerAgrees(c: Collaborators, token: Token, q: Query)
    ensures DestroyAccountHandler(c, token, q) == Sent(AccountRoutes.DestroyAccount(c, token, q))
  {
    var s := [ThrowForbidden(), FallBackToSessions(c, token, SessionIncludeFor(q)),
              RemoveSessionAccount(c, q), ReplyRemoved(c, q), ReplyError(c)];
    var p0 := ValidateAdmin(c, token);
    var p1 := Apply(p0, s[0]);
    var p2 := Apply(p1, s[1]);
    var p3 := Apply(p2, s[2]);
    var p4 := Apply(p3, s[3]);
    var p5 := Apply(p4, s[4]);
    assert Run(p0, s) == Run(p1, s[1..]);
    assert Run(p1, s[1..]) == Run(p2, s[2..]);
    assert Run(p2, s[2..]) == Run(p3, s[3..]);
    assert Run(p3, s[3..]) == Run(p4, s[4..]);
    assert Run(p4, s[4..]) == p5;
    // The reply stage branches on the query inside its callback; settle it per branch.
    if p3.result.Fulfilled? && p3.result.value.AccountValue? {
      var removed := p3.result.value.account;
      var n := ReplyRemoved(c, q).onFulfilled(AccountValue(removed));
      if Truthy(q.inclusion) {
        assert n == Resolved(Replied(Reply(OkCode, Json(c.serialiseAccount(removed)))));
      } else {
        assert n == Resolved(Replied(Reply(NoContentCode, NoBody)));
      }
    }
  }

  lemma {:induction false} GetAccountProfileHandlerAgrees(c: Collaborators, token: Token)
    ensures GetAccountProfileHandler(c, token) == Sent(AccountRoutes.GetAccountProfile(c, token))
  {
    var s := [ThrowForbidden(), FallBackToProfileSession(c, token),
              TakeAccount(), Serialise(c.serialiseProfile), ReplyWith(DefaultCode), ReplyError(c)];
    var p0 := ValidateAdmin(c, token);
    var p1 := Apply(p0, s[0]);
    var p2 := Apply(p1, s[1]);
    var p3 := Apply(p2, s[2]);
    var p4 := Apply(p3, s[3]);
    var p5 := Apply(p4, s[4]);
    var p6 := Apply(p5, s[5]);
    assert Run(p0, s) == Run(p1, s[1..]);
    assert Run(p1, s[1..]) == Run(p2, s[2..]);
    assert Run(p2, s[2..]) == Run(p3, s[3..]);
    assert Run(p3, s[3..]) == Run(p4, s[4..]);
    assert Run(p4, s[4..]) == Run(p5, s[5..]);
    assert Run(p5, s[5..]) == p6;
  }

  // What the chains, as written, guarantee across the routes.

  /** A token the admin store accepts is refused by get-account,
      destroy-account and get-profile alike, with no other store call. */
  lemma AdminTokenRefusedEverywhere(c: Collaborators, token: Token, q: Query)
    requires c.validateSession(token).AdminOk?
    ensures GetAccountHandler(c, token, q) == Sent(Handled([ValidateAdminSession(token)], BoomOf(c, ForbiddenAdminAccount)))
    ensures DestroyAccountHandler(c, token, q) == GetAccountHandler(c, token, q)
    ensures GetAccountProfileHandler(c, token) == GetAccountHandler(c, token, q)
  {
    GetAccountHandlerAgrees(c, token, q);
    DestroyAccountHandlerAgrees(c, token, q);
    GetAccountProfileHandlerAgrees(c, token);
  }

  /** An admin store failure other than not-found reaches the reply of all
      three routes unchanged, and no user session is looked up. */
  lemma AdminStoreFailureSurfacesVerbatim(c: Collaborators, token: Token, q: Query)
    requires c.validateSession(token).AdminErr? && c.validateSession(token).error.name != NotFoundName
    ensures GetAccountHandler(c, token, q) == Sent(Handled([ValidateAdminSession(token)], BoomOf(c, Store(c.validateSession(token).error))))
    ensures DestroyAccountHandler(c, token, q) == GetAccountHandler(c, token, q)
    ensures GetAccountProfileHandler(c, token) == GetAccountHandler(c, token, q)
  {
    GetAccountHandlerAgrees(c, token, q);
    DestroyAccountHandlerAgrees(c, token, q);
    GetAccountProfileHandlerAgrees(c, token);
  }

  /** A token neither store knows, with the session store answering 404:
      get-account and destroy-account reply with the store's own error, and
      get-profile with NO_ACTIVE_SESSION. */
  lemma UnknownTokenReplies(c: Collaborators, token: Token, q: Query)
    requires AccountRoutes.AdminNotFound(c, token)
    requires c.findSession(token, SessionIncludeFor(q)).SessionErr?
    requires c.findSession(token, Some(ProfileInclude)).SessionErr?
    requires c.findSession(token, Some(ProfileInclude)).error.status == Some(NotFoundStatus)
    ensures GetAccountHandler(c, token, q).result == Fulfilled(Replied(BoomOf(c, Store(c.findSession(token, SessionIncludeFor(q)).error))))
    ensures DestroyAccountHandler(c, token, q).result == GetAccountHandler(c, token, q).result
    ensures GetAccountProfileHandler(c, token).result == Fulfilled(Replied(BoomOf(c, NoActiveSession)))
  {
    GetAccountHandlerAgrees(c, token, q);
    DestroyAccountHandlerAgrees(c, token, q);
    GetAccountProfileHandlerAgrees(c, token);
  }

  /** The profile route swallows a session lookup error whose status is not
      404: the chain goes on with `undefined` and fails reading its account,
      so the reply is built from that TypeError, not from the store's error. */
  lemma ProfileSwallowsOtherLookupErrors(c: Collaborators, token: Token)
    requires AccountRoutes.AdminNotFound(c, token)
    requires c.findSession(token, Some(ProfileInclude)).SessionErr?
    requires c.findSession(token, Some(ProfileInclude)).error.status != Some(NotFoundStatus)
    ensures GetAccountProfileHandler(c, token) ==
      Sent(Handled([ValidateAdminSession(token), FindSession(token, Some(ProfileInclude))], BoomOf(c, TypeFault)))
  {
    GetAccountProfileHandlerAgrees(c, token);
  }

  /** Sign-up looks nobody up: its only store call is `accounts.add`. */
  lemma SignUpMakesNoLookup(c: Collaborators, username: string, password: string, id: Option<string>, q: Query)
    ensures SignUpHandler(c, username, password, id, q).calls == [AddAccount(NewAccount(username, password, q.inclusion, id))]
  {
    SignUpHandlerAgrees(c, username, password, id, q);
  }

  /** Whatever the stores answer, every handler ends in exactly one reply:
      its closing `.catch` leaves no rejection behind. */
  lemma EveryHandlerReplies(c: Collaborators, token: Token, q: Query, username: string, password: string, id: Option<string>)
    ensures SignUpHandler(c, username, password, id, q).result.Fulfilled?
    ensures SignUpHandler(c, username, password, id, q).result.value.Replied?
    ensures GetAccountHandler(c, token, q).result.Fulfilled?
    ensures GetAccountHandler(c, token, q).result.value.Replied?
    ensures DestroyAccountHandler(c, token, q).result.Fulfilled?
    ensures DestroyAccountHandler(c, token, q).result.value.Replied?
    ensures GetAccountProfileHandler(c, token).result.Fulfilled?
    ensures GetAccountProfileHandler(c, token).result.value.Replied?
  {
    SignUpHandlerAgrees(c, username, password, id, q);
    GetAccountHandlerAgrees(c, token, q);
    DestroyAccountHandlerAgrees(c, token, q);
    GetAccountProfileHandlerAgrees(c, token);
  }
}
