/**
 * The request gates of the server, as pure decisions.
 *
 * `verifyToken` authenticates a request from its `Authorization` header,
 * `verifyAdmin` authorizes an authenticated one by the caller's stored role,
 * and the admin self-check answers `{admin}` for the caller's own email.
 * Each gate either lets the request proceed or halts it with a response, and
 * records what it did as a trace of events: the verifier calls, the store
 * queries, and the `next()` calls. JWT verification is an oracle: a total
 * function from token text to decoded claims, with the secret and the current
 * time folded in.
 */
module Middleware {
  import opened Wrappers
  import opened Header
  import opened Users

  /**
   * The decoded token payload, reduced to its `email` claim: a string, or
   * absent. (A signed payload may carry a non-string `email`; that case is
   * not part of this model.)
   */
  datatype Claims = Claims(email: Option<string>)

  /** `jwt.verify(token, secret)` at a fixed moment: the decoded claims, or `None` for an invalid or expired token. */
  type Verifier = string -> Option<Claims>

  /** Calls a request makes outside its own code. */
  datatype Event =
    | CallVerify(token: Option<string>)   // jwt.verify(token, ...)
    | QueryEmail(email: Option<string>)   // userCollection.findOne({email})
    | QueryAll                            // userCollection.find()
    | InsertDoc(email: Option<string>)    // userCollection.insertOne(doc)
    | UpdateRole(id: UserId)              // userCollection.updateOne({_id}, {$set: {role: "admin"}})
    | DeleteDoc(id: UserId)               // userCollection.deleteOne({_id})
    | CallNext                            // next()

  /** Whether the event touches the users collection. */
  predicate IsStoreCall(e: Event)
  {
    e.QueryEmail? || e.QueryAll? || e.InsertDoc? || e.UpdateRole? || e.DeleteDoc?
  }

  predicate NoStoreCall(trace: seq<Event>)
  {
    forall k :: 0 <= k < |trace| ==> !IsStoreCall(trace[k])
  }

  /** JSON bodies the routes send. */
  datatype Body =
    | Message(text: string)
    | AdminFlag(admin: bool)
    | UserList(users: seq<User>)
    | InsertAck(message: Option<string>, insertedId: Option<UserId>)
    | UpdateAck(matched: nat, modified: nat)
    | DeleteAck(deleted: nat)

  datatype Response = Response(status: nat, body: Body)

  /** A gate either continues with a value or halts with the response already sent. */
  datatype Outcome<T> = Proceed(value: T) | Halt(response: Response)

  datatype Gated<T> = Gated(outcome: Outcome<T>, trace: seq<Event>)

  const ForbiddenAccess: string := "Forbidden Access"
  const UnauthorizedAccess: string := "Unauthorized Access"

  function Denied(status: nat, text: string): Response
  {
    Response(status, Message(text))
  }

  /** `if (!req.headers.authorization)` fails for a missing header and for an empty one. */
  predicate HasHeader(authorization: Option<string>)
  {
    authorization.Some? && authorization.value != ""
  }

  /**
   * The verification library refuses a missing or empty token by itself
   * ("jwt must be provided"); any other token is up to the oracle.
   */
  function Verification(token: Option<string>, verify: Verifier): (decoded: Option<Claims>)
    ensures token.None? || token == Some("") ==> decoded.None?
  {
    match token
    case None => None
    case Some(t) => if t == "" then None else verify(t)
  }

  /** The token the verifier is called with, for a header that is present. */
  function TokenOf(authorization: Option<string>): (token: Option<string>)
    requires HasHeader(authorization)
    ensures ' ' !in authorization.value ==> token == None
    ensures ' ' in authorization.value ==> token.Some? && ' ' !in token.value
  {
    BearerToken(authorization.value)
  }

  /**
   * `verifyToken`. A missing header halts with 401 before anything else is
   * called. Otherwise the verifier is called once, with the second
   * space-separated field of the header; on failure the request halts with
   * the same 401 response, and on success it proceeds with the decoded claims
   * (what becomes `req.decoded`) and `next()` is called exactly once.
   */
  function VerifyToken(authorization: Option<string>, verify: Verifier): (g: Gated<Claims>)
    ensures authorization == None || authorization == Some("") ==>
      g == Gated(Halt(Denied(401, ForbiddenAccess)), [])
    ensures !HasHeader(authorization) ==> g == Gated(Halt(Denied(401, ForbiddenAccess)), [])
    ensures HasHeader(authorization) ==>
      |g.trace| >= 1 && g.trace[0] == CallVerify(TokenOf(authorization))
    ensures g.outcome.Proceed? <==>
      HasHeader(authorization) && Verification(TokenOf(authorization), verify).Some?
    ensures g.outcome.Proceed? ==>
      Verification(TokenOf(authorization), verify) == Some(g.outcome.value)
    ensures g.outcome.Halt? ==> g.outcome.response == Denied(401, ForbiddenAccess)
    ensures multiset(g.trace)[CallNext] == if g.outcome.Proceed? then 1 else 0
    ensures NoStoreCall(g.trace)
  {
    if !HasHeader(authorization) then
      Gated(Halt(Denied(401, ForbiddenAccess)), [])
    else
      var token := BearerToken(authorization.value);
      match Verification(token, verify)
      case None => Gated(Halt(Denied(401, ForbiddenAccess)), [CallVerify(token)])
      case Some(decoded) => Gated(Proceed(decoded), [CallVerify(token), CallNext])
  }

  /**
   * `verifyAdmin`, run on the claims `verifyToken` attached. It queries the
   * store once, by the claimed email, and proceeds (calling `next()` once)
   * exactly when the record found has role "admin"; a missing record or any
   * other role halts with 403.
   */
  function VerifyAdmin(decoded: Claims, users: seq<User>): (g: Gated<()>)
    ensures |g.trace| >= 1 && g.trace[0] == QueryEmail(decoded.email)
    ensures g.outcome.Proceed? <==> IsAdmin(FindByEmail(users, decoded.email))
    ensures FindByEmail(users, decoded.email).None? ==> g.outcome.Halt?
    ensures g.outcome.Halt? ==> g.outcome.response == Denied(403, ForbiddenAccess) && g.trace == [QueryEmail(decoded.email)]
    ensures g.outcome.Proceed? ==> g.trace == [QueryEmail(decoded.email), CallNext]
  {
    var user := FindByEmail(users, decoded.email);
    if !IsAdmin(user) then
      Gated(Halt(Denied(403, ForbiddenAccess)), [QueryEmail(decoded.email)])
    else
      Gated(Proceed(()), [QueryEmail(decoded.email), CallNext])
  }

  /** What a handler sends and the calls it made. */
  datatype Reply = Reply(response: Response, trace: seq<Event>)

  /**
   * The `GET /users/admin/:email` handler body, after `verifyToken`. A path
   * email other than the token's halts with 403 "Unauthorized Access" before
   * the store is asked; a matching one is looked up and answered with
   * `{admin}`, true exactly when the record found has role "admin".
   */
  function AdminStatus(pathEmail: string, decoded: Claims, users: seq<User>): (r: Reply)
    ensures Some(pathEmail) != decoded.email ==> r == Reply(Denied(403, UnauthorizedAccess), [])
    ensures Some(pathEmail) == decoded.email ==>
      && r.trace == [QueryEmail(Some(pathEmail))]
      && r.response.status == 200
      && r.response.body.AdminFlag?
      && (r.response.body.admin <==> IsAdmin(FindByEmail(users, Some(pathEmail))))
  {
    if Some(pathEmail) != decoded.email then
      Reply(Denied(403, UnauthorizedAccess), [])
    else
      var user := FindByEmail(users, Some(pathEmail));
      var admin := if user.Some? then IsAdmin(user) else false;
      Reply(Response(200, AdminFlag(admin)), [QueryEmail(Some(pathEmail))])
  }

  /** A failed verification and a missing header cannot be told apart by the response. */
  lemma RejectionsIndistinguishable(authorization: Option<string>, verify: Verifier)
    requires HasHeader(authorization) && Verification(TokenOf(authorization), verify).None?
    ensures VerifyToken(authorization, verify).outcome == VerifyToken(None, verify).outcome
  {
  }

  /**
   * Whatever scheme word precedes it, a well-formed header's token is what the
   * oracle sees, and its verdict alone decides.
   */
  lemma VerifierSeesSecondField(scheme: string, token: string, verify: Verifier)
    requires ' ' !in scheme && ' ' !in token && token != ""
    ensures var g := VerifyToken(Some(scheme + [' '] + token), verify);
      && g.trace[0] == CallVerify(Some(token))
      && (g.outcome.Proceed? <==> verify(token).Some?)
      && (g.outcome.Proceed? ==> verify(token) == Some(g.outcome.value))
  {
    TokenAfterAnyScheme(scheme, token, []);
    assert scheme + [' '] + token + [] == scheme + [' '] + token;
  }

  /** A header with no space gives the verifier no token, and the request is refused with 401. */
  lemma NoSpaceRefused(authorization: string, verify: Verifier)
    requires ' ' !in authorization
    ensures VerifyToken(Some(authorization), verify).outcome == Halt(Denied(401, ForbiddenAccess))
  {
    NoSpaceNoToken(authorization);
  }

  /** With unique emails, `verifyAdmin` proceeds exactly when an admin record with the claimed email exists. */
  lemma VerifyAdminIffAdminRecord(decoded: Claims, users: seq<User>)
    requires UniqueEmails(users)
    ensures VerifyAdmin(decoded, users).outcome.Proceed? <==> HasAdminRecord(users, decoded.email)
  {
    AdminLookup(users, decoded.email);
  }

  /** The self-check does not look at the store when the emails differ: any two stores give the same reply. */
  lemma AdminStatusMismatchIgnoresStore(pathEmail: string, decoded: Claims, users: seq<User>, other: seq<User>)
    requires Some(pathEmail) != decoded.email
    ensures AdminStatus(pathEmail, decoded, users) == AdminStatus(pathEmail, decoded, other)
    ensures NoStoreCall(AdminStatus(pathEmail, decoded, users).trace)
  {
  }

  /**
   * With unique emails and matching emails, the self-check answers 200 and
   * `{admin: true}` exactly when an admin record exists; no record answers false.
   */
  lemma AdminStatusIffAdminRecord(pathEmail: string, decoded: Claims, users: seq<User>)
    requires UniqueEmails(users)
    requires Some(pathEmail) == decoded.email
    ensures AdminStatus(pathEmail, decoded, users).response ==
      Response(200, AdminFlag(HasAdminRecord(users, Some(pathEmail))))
    ensures FindByEmail(users, Some(pathEmail)).None? ==>
      AdminStatus(pathEmail, decoded, users).response == Response(200, AdminFlag(false))
  {
    AdminLookup(users, Some(pathEmail));
  }
}
