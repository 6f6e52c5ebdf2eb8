# Account routes of hoodie-server-account, in Dafny

This project models the four handlers of `routes/account.js`:

- sign-up (`PUT /session/account`);
- get-account (`GET /session/account`);
- destroy-account (`DELETE /session/account`);
- get-profile (`GET /session/account/profile`).

Each handler turns a bearer token (or, for sign-up, a payload) into exactly one
reply. The three authenticated routes resolve the token admin first:

- A valid admin session is always refused with `FORBIDDEN_ADMIN_ACCOUNT`.
- An admin error named `not_found` falls back to the user session store, with the same token.
- Any other admin error is passed on unchanged.

The resolved session's account then decides the reply.

The stores (`admins.validateSession`, `sessions.find`, `accounts.add`,
`accounts.remove`), the two serialisers and `errors.parse` are not part of this
model. They are the total functions of a `Collaborators` value, so every
property holds whatever they answer. Each store call is recorded in the
handler's list of calls, so "the session store is never asked" can be stated
and proved.

Files:

- `domain.dfy` (module `Domain`): tokens, sessions, accounts, errors, store
  outcomes, calls, responses. It also holds the mappings the routes share: the
  include directive, `error.status || 400`, and `Boom.create` on a parsed error.
- `account_routes.dfy` (module `AccountRoutes`): one decision function per
  handler, plus the admin-first resolution `Resolve` they share. Their
  contracts state the routes' properties.
- `promise_chain.dfy` (module `PromiseChain`): `.then`/`.catch` chains evaluated
  on promises that have already settled.
- `route_chains.dfy` (module `RouteChains`): each handler written out link by
  link as the chain it is in the source. One lemma per handler proves that the
  chain makes the same store calls and sends the same reply as its decision
  function. Further lemmas state cross-route guarantees of the chains as written.

Behaviour kept as the code has it:

- The profile route swallows a session lookup error whose status is not 404
  (routes/account.js:181-185). The chain then goes on with `undefined`, and
  reading `session.account` throws a TypeError. The model calls that error
  `TypeFault`, and the reply is built from it.
- The profile route passes `session.account`, not a nested profile, to the
  profile serialiser.
- Sign-up replies `error.status || 400`: a status of 0 also becomes 400. The
  other routes pass the parsed status on with no default, even when it is
  undefined.
- Destroy tests the truthiness of `query.include`, so an empty string counts as
  absent and gives 204. It forwards the raw `include` to `accounts.remove`, and
  asks `sessions.find` for `account.profile` only when `include` is `'profile'`.
- `reply(json)` without `.code(...)` sends hapi's default, 200.

The two fixed errors of `utils/errors` (`FORBIDDEN_ADMIN_ACCOUNT`,
`NO_ACTIVE_SESSION`) are taken to be named something other than `not_found`. A
forbidden admin therefore never falls back to the session store. utils/errors
is not part of this model.

## Model

| member | source | states |
|---|---|---|
| `Domain.SessionIncludeFor` | routes/account.js:86-88 | get and destroy ask `sessions.find` for `account.profile` exactly when `query.include` is `'profile'`, and for nothing otherwise |
| `Domain.StatusOr400` | routes/account.js:56-59 | the sign-up error status is the parsed status when it is truthy, and 400 when it is undefined or 0; it is never 0 |
| `AccountRoutes.Resolve` | routes/account.js:77-92 | the admin store is asked first. An admin resolves exactly when the admin store accepts. The session store is asked, with the same token and directive, exactly when the admin error is `not_found`. Any other admin error is kept verbatim. Otherwise the session store's answer is the principal |
| `AccountRoutes.SignUp` | routes/account.js:38-60 | sign-up's only store call is `accounts.add` with the payload's username, password and id and the query's include. It replies 201 with the serialised account exactly when the add succeeds; otherwise the parsed status, or 400 |
| `AccountRoutes.GetAccount` | routes/account.js:74-106 | admin means FORBIDDEN with no session lookup. Another admin error is the reply, verbatim. After `not_found` the session is looked up with the query's directive. The reply is 200 with the serialised account exactly when the lookup succeeds; a failed lookup replies with the store's status and no default |
| `AccountRoutes.DestroyAccount` | routes/account.js:115-153 | same resolution as get. `accounts.remove` is called exactly when a session resolved, on that session's account with the raw include. On success it replies 200 with the removed account's serialisation if include is truthy, else 204 with no body. A failure carries the store's status |
| `AccountRoutes.GetAccountProfile` | routes/account.js:166-203 | same admin precedence. The session is always looked up with `account.profile`. On success it replies with the profile serialisation of the session's account. A 404 lookup error becomes NO_ACTIVE_SESSION; any other lookup error becomes the "no session value" TypeError |
| `PromiseChain.Apply` | routes/account.js:78-105 | a `.then` acts only on a fulfilled promise and a `.catch` only on a rejected one; the other kind passes through unchanged, and earlier store calls are kept |
| `PromiseChain.Run` | routes/account.js:78-105 | running a chain never drops or reorders the store calls made before it |
| `PromiseChain.RejectionSkipsThens` | routes/account.js:94-105 | a rejection passes unchanged over any number of `.then` links, on to the closing `.catch` |
| `PromiseChain.FulfilmentSkipsCatches` | routes/account.js:176-189 | a fulfilled promise passes unchanged over any number of `.catch` links |
| `RouteChains.SignUpHandlerAgrees` | routes/account.js:43-59 | the sign-up chain as written makes the calls and sends the reply that `SignUp` prescribes, for every store answer |
| `RouteChains.GetAccountHandlerAgrees` | routes/account.js:78-105 | the get-account chain as written agrees with `GetAccount` for every store answer |
| `RouteChains.DestroyAccountHandlerAgrees` | routes/account.js:119-152 | the destroy-account chain as written agrees with `DestroyAccount` for every store answer |
| `RouteChains.GetAccountProfileHandlerAgrees` | routes/account.js:170-202 | the profile chain as written, with its inner `.catch`, agrees with `GetAccountProfile` for every store answer |
| `RouteChains.AdminTokenRefusedEverywhere` | routes/account.js:78-82 | an accepted admin token gets the same FORBIDDEN_ADMIN_ACCOUNT reply from get, destroy and profile (likewise 119-123 and 170-174). The admin check is the only store call |
| `RouteChains.AdminStoreFailureSurfacesVerbatim` | routes/account.js:84-92 | a non-`not_found` admin error becomes the reply of get, destroy and profile unchanged (likewise 125-133 and 176-189), and no session lookup is made |
| `RouteChains.UnknownTokenReplies` | routes/account.js:176-189 | for a token neither store knows, get and destroy reply with the session store's own error. Profile replies NO_ACTIVE_SESSION when that error's status is 404 |
| `RouteChains.ProfileSwallowsOtherLookupErrors` | routes/account.js:181-193 | a profile session lookup that fails with a status other than 404 is not rethrown. The reply comes from the TypeError of reading `account` of `undefined`, after exactly the admin check and the session lookup |
| `RouteChains.SignUpMakesNoLookup` | routes/account.js:43-48 | sign-up calls no admin or session store; its only call is `accounts.add` with the payload's and query's fields |
| `RouteChains.EveryHandlerReplies` | routes/account.js:199-202 | whatever the stores answer, each of the four chains ends fulfilled with a reply: the closing `.catch` leaves no rejection |

## Left out

- Route registration, route config and Joi validation of headers, query and payload (routes/account.js:26-37, 63-73, 109-114, 156-165, 206-213). These are hapi plumbing. The model takes the payload's fields and the query as given.
- The internals of the admin session store, the user session store and the account store. Only their outcomes are modelled, as functions in `Collaborators`.
- `serialise-account`, `serialise-profile`, `errors.parse` and `request-to-bearer-token`. The first three are opaque functions of `Collaborators`; the token is a parameter. Whether the serialisers hide the password is up to them and is not stated.
- `Boom.create` and hapi's `reply`. A reply is a value (`Reply` or `Boom` with a possibly undefined status). What Boom does with an undefined status, and a `reply` that throws, are not modelled.
- The binding of `baseUrl` from `server.info.uri` into the serialisers (routes/account.js:16-21). It is configuration, folded into the serialiser functions.
- Asynchrony. Promises are modelled once settled; when callbacks run, and what happens to a request that is abandoned, are not modelled.
- Serialisers and stores that throw synchronously are not modelled: each is a total function. A serialiser handed anything but an account is taken to throw a TypeError. In the chains as written, that happens only on paths the agreement lemmas show are never taken.
