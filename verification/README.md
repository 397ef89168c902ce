# Issue tracker: authentication session and ticket policies

A Dafny model of the decision logic of an issue-tracking web application (an Express/Mongoose
REST server with a React client). Three pieces are modelled:

- **The client's authentication reducer** (`AuthReducer`, file `auth_reducer.dfy`). It is a
  pure `Step` over the session record `{isAuthenticated, accessToken, alert, user, loading}` and
  the browser-storage slot that holds the access token. The ten action tags and the default
  branch are each one case. A table of the fields each branch writes (`Written`) is stated
  independently of `Step`, and a frame lemma ties the two together. Invariants are proved over
  any sequence of dispatches (`Run`).
- **The authentication middleware** (`AuthMiddleware`, file `auth_middleware.dfy`):
  - `protect` gates on the `Authorization: Bearer …` header, verifies the token and loads
    `req.user` in place (a method on the `Request` class).
  - `authorize(roles)` is a membership gate.
  - `validateRefreshToken` consults the refresh-token store first, then verifies.

  The JSON Web Token library is foreign. The `Jwt` value carries its `verify` and `sign` as
  function values, plus the two secrets from the environment. Every external call (verify,
  sign, user lookup, token-store lookup) is recorded in a trace. This is how the model states
  which calls happen and in what order.
- **The ticket controllers** (`Tickets`, file `tickets.dfy`, over the collection functions of
  `TicketStore`, file `ticket_store.dfy`). They cover the query stripping and filter precedence
  of `getTickets` and its page totals; the server-side overwrite of `project` and `submitter` in
  `addTicket`; and the owner-or-role policies of `updateTicket` and `deleteTicket`, including
  the 404 that precedes any authorization.

Shared values (`Option`, the user record, `ErrorResponse`, the `Request` class) are in
`common.dfy`. JavaScript's `split`, `join` and `startsWith` are in `text.dfy`.

Exceptions are modelled where the source raises them:
- A `null` `req.user` reaching `authorize` makes `req.user.role` throw inside the async
  middleware. No `next` call happens (`Next.Escaped`).
- Inside a controller's `try`, such an exception is forwarded by `next(error)` (`Reply.Raised`).
  Examples: `req.user.id` on a `null` user, or `ticket.submitter.toString()` on a ticket
  without a submitter.

Behaviour of the code worth knowing:
- One might expect `isAuthenticated` to hold exactly when an access token is present. The
  reducer does not keep this. USER_LOADED sets the flag whatever the token
  (`UserLoadedWithoutToken`), and REFRESH_TOKEN installs a token without setting the flag
  (`RefreshWithoutAuthentication`). What the code does keep is "the storage slot equals
  `accessToken`" (`RunKeepsSlotInSync`). It also keeps "authenticated only with a token" as
  long as no USER_LOADED arrives (`RunKeepsAuthenticatedHasToken`).
- A valid token for a user who no longer exists sets `req.user` to `null`, and `next()` is
  still called.
- `getTickets` reports `total` from `Ticket.countDocuments()` over the whole collection, not
  over the filtered tickets. `totalPages` is computed from that number.
- `updateTicket` replies with the ticket as it was read before the update.

## Model

| member | source | states |
|---|---|---|
| AuthReducer.Step | client/src/context/auth/authReducer.js:14-105 | The reducer with the storage slot threaded through. If the slot equals `accessToken` before a step, it does so after. Only USER_LOADED and LOGOUT change `user`. An unauthenticated result holds no token unless the branch leaves the flag alone (REFRESH_TOKEN, CLEAR_ALERTS, SET_LOADING, default). The branch lemmas below and `StepFrame` give each branch's full effect. |
| AuthReducer.Run | client/src/context/auth/authReducer.js:14-105 | Dispatching actions in order, as `useReducer` does. A run of unrecognised actions returns the session and the slot unchanged. |
| AuthReducer.SuccessBranch | client/src/context/auth/authReducer.js:16-27 | REGISTER_SUCCESS and LOGIN_SUCCESS give isAuthenticated = true, accessToken = payload, alert = null and loading = false. They store the payload in the slot and keep `user`. |
| AuthReducer.FailBranch | client/src/context/auth/authReducer.js:29-40 | REGISTER_FAIL and LOGIN_FAIL give isAuthenticated = false, accessToken = null, a `danger` alert carrying the payload and loading = false. They clear the slot and keep `user`. |
| AuthReducer.AuthErrorBranch | client/src/context/auth/authReducer.js:42-51 | AUTH_ERROR clears the slot and gives isAuthenticated = false, accessToken = null, alert = null and loading = false. It does not touch `user`. |
| AuthReducer.UserLoadedBranch | client/src/context/auth/authReducer.js:53-62 | USER_LOADED sets isAuthenticated = true, user = payload, alert = null and loading = false. It keeps the access token and the slot. |
| AuthReducer.LogoutBranch | client/src/context/auth/authReducer.js:64-74 | LOGOUT empties everything: not authenticated, no token, no user, no alert, not loading, empty slot. |
| AuthReducer.RefreshTokenBranch | client/src/context/auth/authReducer.js:76-85 | REFRESH_TOKEN stores the payload in the slot and sets accessToken = payload, alert = null and loading = true. It keeps isAuthenticated and user. |
| AuthReducer.ClearAlertsOnlyAlertIdempotent | client/src/context/auth/authReducer.js:87-92 | CLEAR_ALERTS changes only the alert, and applying it twice equals applying it once. |
| AuthReducer.SetLoadingOnlyLoading | client/src/context/auth/authReducer.js:94-99 | SET_LOADING changes only `loading`, to the payload. |
| AuthReducer.DefaultBranch | client/src/context/auth/authReducer.js:101-103 | An unrecognised action returns an equal state and leaves the slot alone. |
| AuthReducer.StepFrame | client/src/context/auth/authReducer.js:14-105 | Every field a branch does not name (the `...state` spread), and the slot when the branch makes no storage call, keeps its value. |
| AuthReducer.RunKeepsSlotInSync | client/src/context/auth/authReducer.js:14-105 | If the storage slot and `accessToken` agree, they agree after any sequence of dispatched actions. |
| AuthReducer.RunKeepsAuthenticatedHasToken | client/src/context/auth/authReducer.js:14-105 | "Authenticated implies a token" survives any sequence of actions that contains no USER_LOADED. |
| AuthReducer.UserLoadedWithoutToken | client/src/context/auth/authReducer.js:53-62 | USER_LOADED on a session without a token yields an authenticated session with no token. |
| AuthReducer.RefreshWithoutAuthentication | client/src/context/auth/authReducer.js:76-85 | REFRESH_TOKEN on an unauthenticated session installs a token but leaves the session unauthenticated. |
| AuthReducer.LogoutResets | client/src/context/auth/authReducer.js:64-74 | Whatever was dispatched before, a final LOGOUT leaves an empty, unauthenticated session and an empty slot. |
| AuthReducer.RunAppend | client/src/context/auth/authReducer.js:14-105 | Dispatching two batches of actions one after the other equals dispatching their concatenation. |
| AuthReducer.LoginScenario | client/src/context/auth/authReducer.js:16-27 | From a logged-out session, LOGIN_SUCCESS("tok123") gives an authenticated session holding and storing "tok123", with no alert and not loading. |
| AuthReducer.LogoutScenario | client/src/context/auth/authReducer.js:64-74 | From a session holding "tok123", LOGOUT gives no authentication, no token, no user and an empty slot. |
| Text.Split | middleware/auth.js:15 | `split(' ')` yields at least one part, and no part contains the separator. |
| Text.JoinSplit | middleware/auth.js:15 | Joining the parts of `split(' ')` with the separator gives back the header. |
| AuthMiddleware.HasBearer | middleware/auth.js:12 | The header passes the gate iff it is present and starts with `Bearer`. The falsy test adds nothing, since an empty header cannot start with `Bearer`. |
| AuthMiddleware.BearerToken | middleware/auth.js:15 | `split(' ')[1]` is defined iff the header contains a space, and the token contains no space. |
| AuthMiddleware.BearerTokenIsSecondSegment | middleware/auth.js:15 | The token `protect` checks is the text between the first and the second space of the header. |
| AuthMiddleware.BearerTokenNeedsSpace | middleware/auth.js:15 | A header without a space yields an undefined token. |
| AuthMiddleware.Protect | middleware/auth.js:9-28 | A header that is absent or does not start with `Bearer` is rejected with 401, with no verify and no lookup, and `req.user` is untouched. A token that fails verification is rejected with the 401 "token not valid" error after exactly one verify call. Otherwise `req.user` becomes the user with the decoded id (or null), after exactly one verify and one lookup, and `next()` is called. `next()` is reached iff the header is a bearer header and the token verifies. |
| AuthMiddleware.Authorize | middleware/auth.js:30-37 | With a user attached, the gate proceeds iff the user's role is in `roles` and otherwise rejects with 401. With no user attached, the exception escapes. |
| AuthMiddleware.AuthorizeMonotone | middleware/auth.js:30-37 | Widening the role list never turns away a user who was admitted. |
| AuthMiddleware.AuthorizeStaffRoute | middleware/auth.js:30-37 | With roles [admin, project manager], a developer is rejected and an admin is admitted. |
| AuthMiddleware.ValidateRefreshTokenAsWritten | middleware/auth.js:40-56 | A token absent from the store gives "No Refresh token" (401) after the store lookup alone, and nothing is verified. A stored token always gives "Refresh token invalid" (401), including when it verifies and a new access token is signed. The flow never calls `next()`. |
| AuthMiddleware.ValidateRefreshToken | middleware/auth.js:40-56 | Corrected flow. A missing store record gives "No Refresh token" with no verification. A failed verification against the refresh secret gives "Refresh token invalid". Otherwise a new access token is signed with the access secret, carrying only the decoded id, and `next()` is called. It proceeds iff the token is stored and verifies. The store is only read. |
| AuthMiddleware.SignedTokenPassesProtect | middleware/auth.js:12-19 | If the token library's sign/verify round-trip holds, then an access token signed for a user id (the one the refresh flow mints) and presented as `Bearer <token>` passes the header check, is the extracted token, and verifies to that id. |
| TicketStore.Find | controllers/tickets.js:22-33 | `Ticket.find` returns only documents matching the filter, and no more of them than the collection holds. |
| TicketStore.FindExactly | controllers/tickets.js:22-33 | A document is in the result of `find` iff it is in the collection and matches the filter. |
| TicketStore.FindById | controllers/tickets.js:117 | `findById` returns a document of the collection with that id, and returns null iff no document has that id. |
| TicketStore.UpdateById | controllers/tickets.js:126-129 | `findByIdAndUpdate` sets the body's fields on the document with that id, keeps its other fields, and leaves every other document as it was. |
| TicketStore.RemoveById | controllers/tickets.js:162 | Removing keeps exactly the documents with other ids. |
| TicketStore.RemoveByIdRemovesOne | controllers/tickets.js:155-162 | In a collection with unique ids, removing a present id shrinks it by exactly one. |
| TicketStore.UpdateByIdKeepsUniqueIds | controllers/tickets.js:126-129 | An update keeps the collection's ids unique. |
| TicketStore.CreateKeepsUniqueIds | controllers/tickets.js:104 | Creating a document under an unused id keeps the ids unique. |
| Tickets.Stripped | controllers/tickets.js:13-19 | The query copy holds exactly the keys of the query other than select, sort, limit, page and user, each with its original value. |
| Tickets.StripQuery | controllers/tickets.js:13-19 | The copy-and-delete loop yields exactly the stripped query. `req.query` itself is a value and is left unchanged. |
| Tickets.SelectFilter | controllers/tickets.js:22-33 | A route id selects the project filter. Otherwise a truthy `?user=` selects the submitter-or-developer filter. Only when neither is present is the filter exactly the stripped query, which never names a removed key. |
| Tickets.UserFilterMeansSubmitterOrDeveloper | controllers/tickets.js:24-30 | With `?user=u`, a ticket is listed iff u is its submitter or its developer. |
| Tickets.CeilDiv | controllers/tickets.js:52 | The page count is the ceiling of total / limit: pages times limit covers the total, and one page fewer does not. |
| Tickets.CeilDivUnique | controllers/tickets.js:52 | That ceiling is the only number with the two properties. |
| Tickets.GetTickets | controllers/tickets.js:11-66 | The listed tickets are the page of `find` under the selected filter. `count` is their number. `total` is the size of the whole collection. `totalPages` is the ceiling of total / limit. The page and limit are echoed. |
| Tickets.AddTicket | controllers/tickets.js:94-110 | The body's `project` is overwritten with the route id and `submitter` with the caller's id, whatever the client sent. A missing project gives a 404 and creates nothing. Otherwise exactly one ticket is appended, carrying those two values. |
| Tickets.MayUpdate | controllers/tickets.js:124-142 | With a developer assigned, update is allowed iff the caller is that developer, an admin or a project manager. Without one, it is allowed iff the caller is an admin or a project manager. |
| Tickets.SubmitterAloneCannotUpdate | controllers/tickets.js:124-142 | A submitter who is neither staff nor the ticket's developer may not update it. |
| Tickets.MayDelete | controllers/tickets.js:161 | With a submitter recorded, delete is allowed iff the caller is the submitter, an admin or a project manager. Without one, only staff pass the predicate, but `DeleteTicket` raises before it is consulted. |
| Tickets.UpdateTicket | controllers/tickets.js:115-148 | A missing ticket gives 404 before any authorization, even with no user attached. A permitted caller gets the update applied and a 200 with the ticket as read. A denied caller gets 401 and the collection is unchanged. A null user raises. |
| Tickets.DeleteTicket | controllers/tickets.js:153-171 | A missing ticket gives 404 before any authorization. A permitted caller gets the ticket removed and a 200. A denied caller gets 401 and nothing is removed. A null user or a ticket without a submitter raises. |
| Tickets.DeleteRemovesExactlyTheTicket | controllers/tickets.js:161-162 | In a collection with unique ids, a permitted delete removes that ticket and keeps every other one. |

## Findings

| source | as written | input that shows it | evidently intended | confidence | as-written member | corrected member |
|---|---|---|---|---|---|---|
| middleware/auth.js:52 | `req.user.accessToken = accessToken` names `req`, which is not a parameter of `validateRefreshToken`. The ReferenceError is caught at line 54, so every success ends in the 401 "Refresh token invalid" error. | A refresh token present in the store that verifies against the refresh secret. | Attach the newly signed access token and call `next()`. | high (not executed) | AuthMiddleware.ValidateRefreshTokenAsWritten | AuthMiddleware.ValidateRefreshToken |

## Left out

- client/src/pages/ManageRoles.js: React rendering and a data-fetching effect, with no decision logic.
- The JSON Web Token library (signing, verification, expiry clock) and the secrets from the process environment are foreign. They are function values and strings in `Jwt`. The sign/verify round trip is a premise (`SignedTokensVerify`), not a proof.
- Mongoose is external. `find`, `findById`, `findByIdAndUpdate`, `remove`, `create` and `countDocuments` are functions over a sequence of documents. The following are not modelled: query casting, schema validation (`runValidators`), population of references, strict-mode dropping of unknown fields, and database errors. A CastError on a malformed id would be forwarded by `next(error)` in the controllers. In `protect`, such an error in the user lookup is caught and becomes the "token not valid" 401.
- `Tickets.GetTickets`: `advancedResults` is not part of this model. Its select/sort/skip/limit step is a function parameter, and the page and limit it reports are inputs, with `limit > 0` required.
- `Tickets.AddTicket`: the id of the new document is an input, because Mongoose generates it.
- `Tickets.CeilDiv`: `Math.ceil` over floating point is taken as exact integer ceiling division.
- Express response shaping (`success` flags, the 201 status on a listing, JSON envelopes), `console.log`, and the async sequencing of handlers.
- `localStorage` is one `Option` slot threaded through the reducer, not a key-value API.
- The refresh-token store is a map keyed by the token string. The source finds a record by its `refreshToken` field, and only the record's presence is consulted.
- `getTicket` (single ticket read) and the login, register and logout flows that issue and revoke refresh tokens are not part of this model.
