/** Values exchanged by the account routes of hoodie-server-account
    (routes/account.js): tokens, sessions, accounts, errors, the outcomes of the
    stores the routes call, and the replies they send.

    The stores (admin sessions, user sessions, accounts), the serialisers and
    `errors.parse` are not part of this model; they enter as the total
    functions of a `Collaborators` value, so every property below holds for
    whatever they answer. */
module Domain {

  datatype Option<T> = None | Some(value: T)

  /** The bearer token taken from the request; opaque. */
  type Token = string

  /** A serialised (JSON API) document; its shape belongs to the serialisers. */
  type Doc = string

  datatype Account = Account(id: string, username: string)

  /** A user session as `sessions.find` returns it: it owns one account. */
  datatype Session = Session(account: Account)

  /** The `include` query parameter, absent when the request has none. */
  datatype Query = Query(inclusion: Option<string>)

  /** The object the sign-up route hands to `accounts.add`. */
  datatype NewAccount = NewAccount(username: string, password: string, inclusion: Option<string>, id: Option<string>)

  /** An error raised by one of the stores: its `name`, its HTTP `status`
      (undefined for some errors) and its message. */
  datatype StoreError = StoreError(name: string, status: Option<int>, message: string)

  /** Everything a handler chain can throw: a store error, the two fixed errors
      of utils/errors the routes throw themselves, and the TypeError the
      JavaScript runtime raises on reading a property of `undefined`. */
  datatype Error =
    | Store(cause: StoreError)
    | ForbiddenAdminAccount
    | NoActiveSession
    | TypeFault

  /** The `{status, message}` pair `errors.parse` makes of an error. */
  datatype ParsedError = ParsedError(status: Option<int>, message: string)

  datatype AdminOutcome = AdminOk | AdminErr(error: StoreError)
  datatype SessionOutcome = SessionOk(session: Session) | SessionErr(error: StoreError)
  datatype AccountOutcome = AccountOk(account: Account) | AccountErr(error: StoreError)

  /** A call into a store, in the order the handler makes it. */
  datatype Call =
    | ValidateAdminSession(token: Token)
    | FindSession(token: Token, inclusion: Option<string>)
    | AddAccount(fields: NewAccount)
    | RemoveAccount(account: Account, inclusion: Option<string>)

  datatype Body = NoBody | Json(doc: Doc)

  /** What a handler sends: a reply with a status code, or a Boom error built
      from a (possibly undefined) status and a message. */
  datatype Response = Reply(code: int, body: Body) | Boom(status: Option<int>, message: string)

  /** The store calls a request caused and the one response it got. */
  datatype Handled = Handled(calls: seq<Call>, response: Response)

  /** The collaborators of the routes, each as a total function of its inputs. */
  datatype Collaborators = Collaborators(
    validateSession: Token -> AdminOutcome,
    findSession: (Token, Option<string>) -> SessionOutcome,
    addAccount: NewAccount -> AccountOutcome,
    removeAccount: (Account, Option<string>) -> AccountOutcome,
    serialiseAccount: Account -> Doc,
    serialiseProfile: Account -> Doc,
    parse: Error -> ParsedError)

  /** The store error name that lets resolution fall back to user sessions. */
  const NotFoundName: string := "not_found"

  /** The include directive that eagerly loads an account's profile. */
  const ProfileInclude: string := "account.profile"

  /** The status code hapi uses for `reply(x)` without `.code(...)`. */
  const DefaultCode: int := 200

  const OkCode: int := 200
  const CreatedCode: int := 201
  const NoContentCode: int := 204
  const DefaultErrorStatus: int := 400
  const NotFoundStatus: int := 404

  /** `error.name === 'not_found'`; the two fixed errors of utils/errors are
      taken to carry other names. */
  predicate IsNotFound(e: Error)
  {
    e.Store? && e.cause.name == NotFoundName
  }

  /** `error.status === 404` for an error of the user session store. */
  predicate IsStatus404(e: Error)
  {
    e.Store? && e.cause.status == Some(NotFoundStatus)
  }

  /** JavaScript truthiness of an optional string: undefined and '' are falsy. */
  predicate Truthy(s: Option<string>)
  {
    s.Some? && s.value != ""
  }

  /** The include directive get-account and destroy-account pass to
      `sessions.find`: the profile is loaded exactly when the query asks for
      'profile', and nothing is requested otherwise. */
  function SessionIncludeFor(q: Query): (inc: Option<string>)
    ensures inc == Some(ProfileInclude) <==> q.inclusion == Some("profile")
    ensures inc == None <==> q.inclusion != Some("profile")
  {
    if q.inclusion == Some("profile") then Some(ProfileInclude) else None
  }

  /** `error.status || 400`: the parsed status when it is truthy, else 400. */
  function StatusOr400(status: Option<int>): (code: int)
    ensures code != 0
    ensures status.Some? && status.value != 0 ==> code == status.value
    ensures status.None? || status == Some(0) ==> code == DefaultErrorStatus
  {
    if status.Some? && status.value != 0 then status.value else DefaultErrorStatus
  }

  /** `Boom.create(error.status, error.message)` on the parsed error, with no
      default for the status. */
  function BoomOf(c: Collaborators, e: Error): Response
  {
    Boom(c.parse(e).status, c.parse(e).message)
  }
}
