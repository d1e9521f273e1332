# Bistro Boss users API: authentication and authorization gates

This project models the request gating of the Bistro Boss restaurant server
(`index.js`) and proves what it guarantees:

- **`verifyToken`** reads the `Authorization` header, takes the second
  space-separated field as the token, hands it to JWT verification and, on
  success, sets `req.decoded` and calls `next()`; otherwise it answers
  401 "Forbidden Access".
- **`verifyAdmin`** looks up the user whose email is `req.decoded.email` and
  lets the request through only if that record's role is `"admin"`, else
  answers 403 "Forbidden Access".
- **The admin self-check** `GET /users/admin/:email` refuses with 403
  "Unauthorized Access" when the path email is not the token's, and otherwise
  answers `{admin}`.
- **The users routes**: `GET /users`, `PATCH /users/admin/:id` and
  `DELETE /users/:id` run behind both gates; `POST /users` inserts a user
  unless one with the same email exists.

JWT verification is an oracle, `Verifier = string -> Option<Claims>`, with
the secret and the current time folded in. The verification library's own
refusal of a missing or empty token ("jwt must be provided") is modelled,
because it decides what happens to a header without a space.

The users collection is a sequence of documents. `findOne`, `updateOne` and
`deleteOne` act on the first matching document in the store's natural order.
The model takes insertion order as that natural order. The store itself does
not promise this order, but the lemmas proved under `UniqueEmails` do not
depend on it. A missing `email`, a JavaScript `undefined` that the driver sends as
`null`, is `None`: it matches exactly the documents without an email.

Every gate and handler returns a trace of the calls it made: verifier calls,
store queries and `next()` calls. Statements such as "no lookup before
rejection" and "`next` exactly once" are made about that trace.

Modules:
- `Header` (header.dfy): JavaScript's `split(' ')` and `join`, their round
  trips, and `BearerToken`, the token taken from the header.
- `Users` (users.dfy): the documents, the store primitives, and the
  collection invariant `Valid`. `Valid` says ids are unique and below the id
  counter, and no two users share an email.
- `Middleware` (middleware.dfy): the gates as pure functions.
- `Routes` (routes.dfy): each route as a whole run (gates composed with the
  handler), and the lemmas about runs.
- `Server` (server.dfy): the imperative form. `Request` is a class whose
  `decoded` field `verifyToken` sets, and `UserStore` is a class whose
  collection the handlers update. `App` has one method per route, written
  with the source's early returns. The route methods are proved equal to
  their `Routes` functions. `App.VerifyToken` and `App.VerifyAdmin` are
  proved equal to the `Middleware` gates, and the `UserStore` methods to the
  `Users` primitives. The mutating route methods are also proved to keep
  `Valid`.

Behaviour of the code worth noting:
- The scheme word in front of the token is never checked.
- A missing or empty header and a failed verification give the same
  401 "Forbidden Access" response.
- Roles are free strings, compared with `"admin"`.
- No route demotes a user.
- `POST /users` stores the body as sent, with any `role` the client
  includes. `Routes.SelfRegisteredAdmin` shows that a first registration
  carrying role `"admin"` passes `verifyAdmin`.
- Email uniqueness is not a store constraint. Only `POST /users` checks for it.
  So "`verifyAdmin` passes iff an admin record with that email exists" is
  proved under `UniqueEmails`. Without that condition only the forward
  direction holds (`Users.AdminLookup`), because the first match decides.

## Model

| member | source | states |
|---|---|---|
| Header.BearerToken | index.js:49 | the token is absent exactly when the header has no space, and a present token contains no space |
| Header.Split | index.js:49 | `split(' ')` always yields at least one field; `SplitFields`, `JoinSplit` and `SplitJoin` pin down the rest |
| Header.SplitFields | index.js:49 | no field of `split(' ')` contains the separator, and there is exactly one field iff the string has no separator |
| Header.JoinSplit | index.js:49 | joining the fields of a split gives back the original header |
| Header.SplitJoin | index.js:49 | splitting a join of separator-free fields gives back the same fields |
| Header.TokenAfterAnyScheme | index.js:49 | whatever the first word is, the token is exactly the word after the first space, up to the next space |
| Header.NoSpaceNoToken | index.js:49 | a header with no space yields no token (a named corollary of `BearerToken`'s contract) |
| Users.FirstMatch | index.js:63-119 | the position found is the first document the `{email}` or `{_id}` filter matches, or the end when none does |
| Users.FindByEmail | index.js:62-63 | `findOne({email})` finds a document iff one with that email is stored, and what it finds is stored with that email |
| Users.FindById | index.js:106-119 | the id lookup finds a document iff one with that id is stored |
| Users.AdminLookup | index.js:63-64 | if the first record for an email is an admin, some admin record with that email exists; with unique emails the converse holds too |
| Users.InsertOne | index.js:101 | `insertOne` appends exactly the body as a new document with a fresh id |
| Users.InsertOneValid | index.js:93-101 | inserting a body whose email is not stored keeps ids and emails unique |
| Users.PromoteOne | index.js:106-112 | `updateOne $set role` keeps length, ids, emails and other fields of every document |
| Users.PromoteOneEffect | index.js:106-112 | with unique ids, the record with the id gets role "admin" and every other record is unchanged |
| Users.PromoteOneValid | index.js:106-112 | make-admin keeps the collection valid |
| Users.DeleteOne | index.js:118-119 | `deleteOne` removes one document when the id is stored and none otherwise; the result is a sub-multiset of the input |
| Users.DeleteOneEffect | index.js:118-119 | with unique ids, afterwards exactly the users with other ids remain |
| Users.DeleteOneValid | index.js:118-119 | delete keeps the collection valid |
| Middleware.TokenOf | index.js:49 | for a present header, there is no token iff the header has no space, and a token never contains a space |
| Middleware.Verification | index.js:51 | verification of a missing or empty token always fails |
| Middleware.VerifyToken | index.js:45-58 | a missing or empty header gives 401 with an empty trace; otherwise the verifier is called first, with the second header field; the gate proceeds iff verification succeeds, with the decoded claims; a failure gives the same 401; `next` is called exactly once on success and never otherwise; no store call is made |
| Middleware.VerifyAdmin | index.js:60-69 | the store is queried by the claimed email; the gate proceeds, calling `next` once, iff the record found has role "admin" (`user?.role === 'admin'`); no record halts; otherwise 403 "Forbidden Access" |
| Middleware.AdminStatus | index.js:78-88 | a path email other than the token's gives 403 "Unauthorized Access" with no store call; a matching one gives 200 `{admin}` with admin iff the record found has role "admin" |
| Middleware.RejectionsIndistinguishable | index.js:46-54 | a failed verification and a missing header produce the same outcome |
| Middleware.VerifierSeesSecondField | index.js:49-56 | for any scheme word, the oracle gets the word after it, and its verdict alone decides the gate and the claims |
| Middleware.NoSpaceRefused | index.js:49-54 | a header without a space is refused with 401 |
| Middleware.VerifyAdminIffAdminRecord | index.js:61-67 | with unique emails, `verifyAdmin` proceeds iff an admin record with the claimed email exists |
| Middleware.AdminStatusMismatchIgnoresStore | index.js:79-81 | on an email mismatch the reply is the same for every store, and no store call is made |
| Middleware.AdminStatusIffAdminRecord | index.js:82-88 | with unique emails and matching email, the reply is 200 `{admin}` with admin iff an admin record exists; no record gives false |
| Routes.AdminGate | index.js:71 | the two gates in sequence: a token halt is the result unchanged and nothing else runs; otherwise the gate proceeds iff `verifyAdmin` does, and its halt is 403; no handler call is made |
| Routes.RunAdminAction | index.js:71-121 | list returns the whole collection unchanged; make-admin and delete change the collection by `PromoteOne`/`DeleteOne`, report match, modify and delete counts from whether the id is stored and its old role, and make one handler call |
| Routes.AdminRoute | index.js:71-121 | when not authorized: the gate's response, collection unchanged, no handler call; when authorized: the trace is verify, next, role lookup, next, then the handler, and the result is the handler's |
| Routes.AdminStatusRoute | index.js:77-89 | the self-check route never changes the collection; a token halt answers alone; otherwise the self-check decides |
| Routes.PostUsers | index.js:91-103 | an existing email leaves the collection unchanged and answers `insertedId: null`; otherwise exactly one document is appended and its id returned; a valid collection stays valid |
| Routes.MissingHeaderStopsEverything | index.js:46-48 | with no header, the admin-only routes and the self-check answer 401, keep the collection, and call nothing |
| Routes.HandlerOnlyWhenAuthorized | index.js:105-121 | a changed collection or any handler call implies both gates passed; an authorized request does reach its handler |
| Routes.AuthorizedIff | index.js:45-69 | authorized iff the header is present, the token verifies, and the claimed email's record is an admin; with unique emails, iff any admin record with that email exists |
| Routes.AdminRouteKeepsValid | index.js:105-121 | every admin-only route keeps the collection valid |
| Routes.MakeAdminEffect | index.js:105-114 | an authorized make-admin gives role "admin" to the record with the id and leaves every other record and field unchanged |
| Routes.RemoveEffect | index.js:117-121 | an authorized delete removes exactly the record with that id |
| Routes.AdminStatusMismatch | index.js:77-81 | with a valid token for another email: 403 "Unauthorized Access", no store call, the same for any store |
| Routes.PostUsersTwice | index.js:93-100 | registering the same body a second time is refused with `insertedId: null` and leaves the collection unchanged |
| Routes.SelfRegisteredAdmin | index.js:91-103 | a first registration whose body carries role "admin" makes its email pass `verifyAdmin` |
| Routes.StoredAdminExample | index.js:77-89 | with a stored admin `a@x.com` and its token: the self-check for `a@x.com` gives `{admin: true}`, the one for `b@x.com` gives 403, and the admin gates pass |
| Routes.PlainUserExample | index.js:60-89 | with a role-less record and its token: the admin-only routes give 403 with the collection unchanged, and the self-check gives `{admin: false}` |
| Server.UserStore.FindOne | index.js:63 | the in-order scan finds nothing iff no document has the email; otherwise it returns a document with the email that no earlier document shares; the result equals `Users.FindByEmail` |
| Server.UserStore.InsertOne | index.js:101 | the new state is `Users.InsertOne` of the old one, and the returned id is the old counter |
| Server.UserStore.PromoteOne | index.js:112 | the collection becomes `Users.PromoteOne` of the old one; the match and modify counts follow whether the id is stored and its old role |
| Server.UserStore.DeleteOne | index.js:119 | the collection becomes `Users.DeleteOne` of the old one; the delete count is 1 iff the id was stored |
| Server.App.VerifyToken | index.js:45-58 | continues iff `Middleware.VerifyToken` proceeds, setting `req.decoded` to the claims; a rejection returns that gate's response and leaves `req.decoded` alone |
| Server.App.VerifyAdmin | index.js:60-69 | rejects exactly as `Middleware.VerifyAdmin` halts, with its response |
| Server.App.GetUsers | index.js:71-75 | the response is that of `Routes.AdminRoute` for listing; the collection is not modified; `req.decoded` is the decoded claims when the token gate proceeds and unchanged otherwise |
| Server.App.GetAdminStatus | index.js:77-89 | the response is that of `Routes.AdminStatusRoute`; `req.decoded` is the decoded claims when the token gate proceeds and unchanged otherwise |
| Server.App.PostUsers | index.js:91-103 | response and new collection are those of `Routes.PostUsers`; the collection stays valid |
| Server.App.PatchMakeAdmin | index.js:105-114 | response and new collection are those of `Routes.AdminRoute` for make-admin; the collection stays valid; `req.decoded` is the decoded claims when the token gate proceeds and unchanged otherwise |
| Server.App.DeleteUser | index.js:117-121 | response and new collection are those of `Routes.AdminRoute` for delete; the collection stays valid; `req.decoded` is the decoded claims when the token gate proceeds and unchanged otherwise |

## Left out

- `jwt.sign`, `POST /jwt` and the signature and expiry checks inside `jwt.verify` belong to a foreign library. Verification is an oracle, so no property about issued tokens is proved. In particular there is no sign-then-verify round trip, and no tamper or expiry property.
- Middleware.Verification: apart from the library's refusal of a missing or empty token, the verdict is the oracle's. The model does not relate it to signatures or time.
- MongoDB connection setup, ping and collection handles are I/O. The collection is an in-memory sequence. Store failures and rejected promises are not modelled.
- `new ObjectId(req.params.id)` and the exception it throws on a malformed id come from a foreign library. Ids are opaque naturals, and the store hands them out from a counter (`nextId`).
- Express routing, CORS, JSON body parsing, `app.listen` and the `console.log` calls are left out. Response bodies are datatypes, not JSON text. Fields that `insertOne` adds to its result (`acknowledged`), and fields of the update and delete results other than the counts, are left out.
- Claims carry only an `email` that is a string or absent. `jwt.verify` returns whatever payload was signed, and `POST /jwt` signs any request body, so `req.decoded.email` can be a number, an array or an object. `verifyAdmin` puts that value into its `findOne` filter unchanged, where an object such as `{"$ne": null}` acts as a query operator and matches any user that has an email. The model does not capture this case.
- Request bodies are `Doc`: an optional email, an optional role and other string fields. A body with its own `_id`, or with fields that are not strings, is not modelled.
- The menu, reviews and carts routes are unguarded pass-through queries with no decision logic.
- `async`/`await` interleaving is left out. Each request is one sequential run, and concurrent requests that race on the same email are not modelled.
- The call traces exist only in the functional layer (`Middleware`, `Routes`). The `Server` methods are proved equal to those functions in response and in store state, not in trace.
- `verifyAdmin` on its own reads `req.decoded.email` and would throw if `decoded` were unset. Every route puts `verifyToken` in front of it, so `Middleware.VerifyAdmin` takes the claims and `Server.App.VerifyAdmin` requires them.
