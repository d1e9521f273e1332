/**
 * The users routes as whole request runs: the gates in front of a route
 * composed with its handler, giving the response, the collection afterwards
 * and the trace of calls made.
 *
 * A run goes Unchecked -> Authenticated (`verifyToken` proceeds) -> Authorized
 * (`verifyAdmin` proceeds) -> Handled, and any gate that halts ends it with
 * its response: nothing after it runs.
 */
module Routes {
  import opened Wrappers
  import Header
  import opened Users
  import opened Middleware

  datatype Exchange = Exchange(response: Response, db: Db, trace: seq<Event>)

  /** The handlers behind `verifyToken, verifyAdmin`. */
  datatype AdminAction =
    | ListAll               // GET /users
    | MakeAdmin(id: UserId) // PATCH /users/admin/:id
    | Remove(id: UserId)    // DELETE /users/:id

  const AlreadyStored: string := "user already in the db"

  /** Calls that belong to a handler rather than to a gate. */
  predicate IsHandlerCall(e: Event)
  {
    e.QueryAll? || e.InsertDoc? || e.UpdateRole? || e.DeleteDoc?
  }

  predicate HasHandlerCall(trace: seq<Event>)
  {
    exists k :: 0 <= k < |trace| && IsHandlerCall(trace[k])
  }

  /**
   * `verifyToken` then `verifyAdmin`. It proceeds, with the decoded claims,
   * exactly when both do; when the token gate halts, the store is never
   * asked and its 401 is the answer; otherwise a 403 from the role gate is.
   */
  function AdminGate(authorization: Option<string>, verify: Verifier, users: seq<User>): (g: Gated<Claims>)
    ensures var t := VerifyToken(authorization, verify);
      && (t.outcome.Halt? ==> g == t)
      && (t.outcome.Proceed? ==>
            var a := VerifyAdmin(t.outcome.value, users);
            && g.trace == t.trace + a.trace
            && (g.outcome.Proceed? <==> a.outcome.Proceed?)
            && (g.outcome.Proceed? ==> g.outcome == t.outcome)
            && (g.outcome.Halt? ==> g.outcome.response == Denied(403, ForbiddenAccess)))
    ensures HandlerCallFree(g.trace)
  {
    var t := VerifyToken(authorization, verify);
    match t.outcome
    case Halt(_) => t
    case Proceed(decoded) =>
      var a := VerifyAdmin(decoded, users);
      match a.outcome
      case Halt(r) => Gated(Halt(r), t.trace + a.trace)
      case Proceed(_) => Gated(Proceed(decoded), t.trace + a.trace)
  }

  predicate HandlerCallFree(trace: seq<Event>)
  {
    forall k :: 0 <= k < |trace| ==> !IsHandlerCall(trace[k])
  }

  /** Both gates let the request through. */
  predicate Authorized(authorization: Option<string>, verify: Verifier, users: seq<User>)
  {
    AdminGate(authorization, verify, users).outcome.Proceed?
  }

  /**
   * The handler bodies of the admin-only routes. Listing returns the whole
   * collection and changes nothing. Make-admin reports one match when a
   * record has the id and one modification when that record's role was not
   * already "admin". Delete reports one deletion when a record has the id.
   */
  function RunAdminAction(db: Db, action: AdminAction): (x: Exchange)
    ensures action.ListAll? ==> x == Exchange(Response(200, UserList(db.users)), db, [QueryAll])
    ensures action.MakeAdmin? ==>
      var found := FindById(db.users, action.id);
      && x.db == db.(users := PromoteOne(db.users, action.id))
      && x.trace == [UpdateRole(action.id)]
      && x.response == Response(200, UpdateAck(
           if found.Some? then 1 else 0,
           if found.Some? && found.value.role != Some(AdminRole) then 1 else 0))
    ensures action.Remove? ==>
      && x.db == db.(users := DeleteOne(db.users, action.id))
      && x.trace == [DeleteDoc(action.id)]
      && x.response == Response(200, DeleteAck(if FindById(db.users, action.id).Some? then 1 else 0))
    ensures |x.trace| == 1 && IsHandlerCall(x.trace[0])
  {
    match action
    case ListAll =>
      Exchange(Response(200, UserList(db.users)), db, [QueryAll])
    case MakeAdmin(id) =>
      var k := FirstMatch(db.users, IdIs(id));
      var matched := if k < |db.users| then 1 else 0;
      var modified := if k < |db.users| && db.users[k].role != Some(AdminRole) then 1 else 0;
      Exchange(Response(200, UpdateAck(matched, modified)), db.(users := PromoteOne(db.users, id)), [UpdateRole(id)])
    case Remove(id) =>
      var k := FirstMatch(db.users, IdIs(id));
      Exchange(Response(200, DeleteAck(if k < |db.users| then 1 else 0)),
               db.(users := DeleteOne(db.users, id)), [DeleteDoc(id)])
  }

  /**
   * An admin-only route: the handler runs only behind both gates. When the
   * gates halt, the collection is as before, the response is the gate's, and
   * no handler call is made; when they pass, the run has gone through exactly
   * verify, next, role lookup, next before the handler's own call.
   */
  function AdminRoute(authorization: Option<string>, verify: Verifier, db: Db, action: AdminAction): (x: Exchange)
    ensures var g := AdminGate(authorization, verify, db.users);
      !Authorized(authorization, verify, db.users) ==>
        x == Exchange(g.outcome.response, db, g.trace) && HandlerCallFree(x.trace)
    ensures Authorized(authorization, verify, db.users) ==>
      var decoded := VerifyToken(authorization, verify).outcome.value;
      var h := RunAdminAction(db, action);
      && x.response == h.response && x.db == h.db
      && x.trace == [CallVerify(TokenOf(authorization)), CallNext, QueryEmail(decoded.email), CallNext] + h.trace
  {
    var g := AdminGate(authorization, verify, db.users);
    match g.outcome
    case Halt(r) => Exchange(r, db, g.trace)
    case Proceed(_) =>
      var h := RunAdminAction(db, action);
      Exchange(h.response, h.db, g.trace + h.trace)
  }

  /**
   * `GET /users/admin/:email`: `verifyToken`, then the self-check. The
   * collection is only read.
   */
  function AdminStatusRoute(authorization: Option<string>, verify: Verifier, db: Db, pathEmail: string): (x: Exchange)
    ensures x.db == db
    ensures var t := VerifyToken(authorization, verify);
      && (t.outcome.Halt? ==> x == Exchange(t.outcome.response, db, t.trace))
      && (t.outcome.Proceed? ==>
            var a := AdminStatus(pathEmail, t.outcome.value, db.users);
            x == Exchange(a.response, db, t.trace + a.trace))
  {
    var t := VerifyToken(authorization, verify);
    match t.outcome
    case Halt(r) => Exchange(r, db, t.trace)
    case Proceed(decoded) =>
      var a := AdminStatus(pathEmail, decoded, db.users);
      Exchange(a.response, db, t.trace + a.trace)
  }

  /**
   * `POST /users`, unguarded. A body whose email is already stored leaves
   * the collection alone and answers `insertedId: null`; otherwise exactly
   * that one document, with a fresh id, is appended. Either way a valid
   * collection stays valid, so emails stay unique.
   */
  function PostUsers(db: Db, doc: Doc): (x: Exchange)
    ensures FindByEmail(db.users, doc.email).Some? ==>
      x == Exchange(Response(200, InsertAck(Some(AlreadyStored), None)), db, [QueryEmail(doc.email)])
    ensures FindByEmail(db.users, doc.email).None? ==>
      && x.db.users == db.users + [User(db.nextId, doc.email, doc.role, doc.fields)]
      && x.response == Response(200, InsertAck(None, Some(db.nextId)))
      && x.trace == [QueryEmail(doc.email), InsertDoc(doc.email)]
    ensures Valid(db) ==> Valid(x.db)
  {
    if FindByEmail(db.users, doc.email).Some? then
      Exchange(Response(200, InsertAck(Some(AlreadyStored), None)), db, [QueryEmail(doc.email)])
    else
      InsertOneValid(db, doc);
      Exchange(Response(200, InsertAck(None, Some(db.nextId))), InsertOne(db, doc),
               [QueryEmail(doc.email), InsertDoc(doc.email)])
  }

  /** Without an `Authorization` header every guarded route answers 401 and calls nothing: no verifier, no store, no `next()`. */
  lemma MissingHeaderStopsEverything(authorization: Option<string>, verify: Verifier, db: Db, action: AdminAction, pathEmail: string)
    requires !HasHeader(authorization)
    ensures AdminRoute(authorization, verify, db, action) == Exchange(Denied(401, ForbiddenAccess), db, [])
    ensures AdminStatusRoute(authorization, verify, db, pathEmail) == Exchange(Denied(401, ForbiddenAccess), db, [])
  {
  }

  /**
   * The admin-only handlers run only if both gates passed: a changed
   * collection or any handler call means the request was authorized.
   */
  lemma HandlerOnlyWhenAuthorized(authorization: Option<string>, verify: Verifier, db: Db, action: AdminAction)
    ensures var x := AdminRoute(authorization, verify, db, action);
      x.db != db || HasHandlerCall(x.trace) ==> Authorized(authorization, verify, db.users)
    ensures Authorized(authorization, verify, db.users) ==> HasHandlerCall(AdminRoute(authorization, verify, db, action).trace)
  {
    var x := AdminRoute(authorization, verify, db, action);
    if Authorized(authorization, verify, db.users) {
      assert IsHandlerCall(x.trace[4]);
    }
  }

  /**
   * Who is authorized: a present header whose token verifies, and whose
   * claimed email has an admin record; with unique emails, any admin record
   * with that email will do.
   */
  lemma AuthorizedIff(authorization: Option<string>, verify: Verifier, users: seq<User>)
    ensures Authorized(authorization, verify, users) <==>
      && HasHeader(authorization)
      && var decoded := Verification(TokenOf(authorization), verify);
      && decoded.Some?
      && IsAdmin(FindByEmail(users, decoded.value.email))
    ensures UniqueEmails(users) ==>
      (Authorized(authorization, verify, users) <==>
        && HasHeader(authorization)
        && var decoded := Verification(TokenOf(authorization), verify);
        && decoded.Some?
        && HasAdminRecord(users, decoded.value.email))
  {
    if HasHeader(authorization) && Verification(TokenOf(authorization), verify).Some? {
      AdminLookup(users, Verification(TokenOf(authorization), verify).value.email);
    }
  }

  /** Every admin-only route keeps a valid collection valid. */
  lemma AdminRouteKeepsValid(authorization: Option<string>, verify: Verifier, db: Db, action: AdminAction)
    requires Valid(db)
    ensures Valid(AdminRoute(authorization, verify, db, action).db)
  {
    if Authorized(authorization, verify, db.users) {
      match action
      case ListAll =>
      case MakeAdmin(id) => PromoteOneValid(db, id);
      case Remove(id) => DeleteOneValid(db, id);
    }
  }

  /**
   * Make-admin, when authorized: the record with the id gets role "admin",
   * every other record and every other field is as before, and ids stay put.
   */
  lemma MakeAdminEffect(authorization: Option<string>, verify: Verifier, db: Db, id: UserId)
    requires Valid(db)
    requires Authorized(authorization, verify, db.users)
    ensures var after := AdminRoute(authorization, verify, db, MakeAdmin(id)).db;
      && after.nextId == db.nextId
      && |after.users| == |db.users|
      && forall i :: 0 <= i < |db.users| ==>
           after.users[i] == (if db.users[i].id == id then db.users[i].(role := Some(AdminRole)) else db.users[i])
  {
    PromoteOneEffect(db.users, id);
  }

  /** Delete, when authorized: exactly the record with the id is gone; everything else stays. */
  lemma RemoveEffect(authorization: Option<string>, verify: Verifier, db: Db, id: UserId)
    requires Valid(db)
    requires Authorized(authorization, verify, db.users)
    ensures var after := AdminRoute(authorization, verify, db, Remove(id)).db;
      && after.nextId == db.nextId
      && forall u :: u in after.users <==> u in db.users && u.id != id
  {
    DeleteOneEffect(db.users, id);
  }

  /**
   * The self-check with a path email other than the token's: 403
   * "Unauthorized Access", no store call, and the same answer whatever the
   * collection holds.
   */
  lemma AdminStatusMismatch(authorization: Option<string>, verify: Verifier, db: Db, other: Db, pathEmail: string)
    requires VerifyToken(authorization, verify).outcome.Proceed?
    requires Some(pathEmail) != VerifyToken(authorization, verify).outcome.value.email
    ensures var x := AdminStatusRoute(authorization, verify, db, pathEmail);
      && x.response == Denied(403, UnauthorizedAccess)
      && NoStoreCall(x.trace)
      && x.response == AdminStatusRoute(authorization, verify, other, pathEmail).response
  {
  }

  /** Registering the same body twice stores it once. */
  lemma PostUsersTwice(db: Db, doc: Doc)
    ensures var once := PostUsers(db, doc);
      PostUsers(once.db, doc) == Exchange(Response(200, InsertAck(Some(AlreadyStored), None)), once.db, [QueryEmail(doc.email)])
  {
    var once := PostUsers(db, doc);
    if FindByEmail(db.users, doc.email).None? {
      assert once.db.users[|db.users|].email == doc.email;
    }
  }

  /**
   * The body is stored as sent, `role` included: a first registration that
   * carries role "admin" makes its email pass `verifyAdmin`.
   */
  lemma SelfRegisteredAdmin(db: Db, doc: Doc)
    requires FindByEmail(db.users, doc.email).None?
    requires doc.role == Some(AdminRole)
    ensures VerifyAdmin(Claims(doc.email), PostUsers(db, doc).db.users).outcome.Proceed?
  {
    var after := PostUsers(db, doc).db.users;
    var found := FindByEmail(after, doc.email);
    assert after[|db.users|].email == doc.email;
    assert found.value !in db.users;
  }

  /** The header "Bearer t" proceeds with whatever the oracle decodes from "t". */
  lemma BearerExample(verify: Verifier)
    requires verify("t").Some?
    ensures VerifyToken(Some("Bearer t"), verify).outcome == Proceed(verify("t").value)
  {
    Header.TokenAfterAnyScheme("Bearer", "t", []);
    assert "Bearer" + [' '] + "t" + [] == "Bearer t";
  }

  /**
   * A worked case: one stored admin `a@x.com` and a bearer token the oracle
   * decodes to that email. The self-check for `a@x.com` answers
   * `{admin: true}`, the one for `b@x.com` is refused with 403, and the
   * admin-only routes let the request through.
   */
  lemma StoredAdminExample(verify: Verifier)
    requires verify("t") == Some(Claims(Some("a@x.com")))
    ensures var db := Db([User(0, Some("a@x.com"), Some(AdminRole), map[])], 1);
      && AdminStatusRoute(Some("Bearer t"), verify, db, "a@x.com").response == Response(200, AdminFlag(true))
      && AdminStatusRoute(Some("Bearer t"), verify, db, "b@x.com").response == Denied(403, UnauthorizedAccess)
      && Authorized(Some("Bearer t"), verify, db.users)
  {
    var users := [User(0, Some("a@x.com"), Some(AdminRole), map[])];
    BearerExample(verify);
    assert FirstMatch(users, EmailIs(Some("a@x.com"))) == 0;
    assert IsAdmin(FindByEmail(users, Some("a@x.com")));
    assert "b@x.com"[0] != "a@x.com"[0];
  }

  /**
   * The same token when the stored record has no role: the admin-only routes
   * answer 403 and the self-check answers `{admin: false}`.
   */
  lemma PlainUserExample(verify: Verifier, action: AdminAction)
    requires verify("t") == Some(Claims(Some("a@x.com")))
    ensures var db := Db([User(0, Some("a@x.com"), None, map[])], 1);
      && AdminRoute(Some("Bearer t"), verify, db, action).response == Denied(403, ForbiddenAccess)
      && AdminRoute(Some("Bearer t"), verify, db, action).db == db
      && AdminStatusRoute(Some("Bearer t"), verify, db, "a@x.com").response == Response(200, AdminFlag(false))
  {
    var users := [User(0, Some("a@x.com"), None, map[])];
    BearerExample(verify);
    assert FirstMatch(users, EmailIs(Some("a@x.com"))) == 0;
    assert FindByEmail(users, Some("a@x.com")) == Some(users[0]);
  }
}
