/**
 * The server's request handling in its own imperative form: a request
 * object whose `decoded` field `verifyToken` sets, the users collection as
 * an object the handlers update, and one method per users route that runs
 * the gates and the handler body step by step, with early returns. Each
 * route method is proved to do what the corresponding function of `Routes`
 * computes, and the mutating ones to keep the collection valid.
 */
module Server {
  import opened Wrappers
  import opened Header
  import opened Users
  import opened Middleware
  import opened Routes

  /** An incoming request: its `Authorization` header and `req.decoded`. */
  class Request {
    const authorization: Option<string>
    var decoded: Option<Claims>

    constructor (authorization: Option<string>)
      ensures this.authorization == authorization && decoded == None
    {
      this.authorization := authorization;
      decoded := None;
    }
  }

  /** The users collection. */
  class UserStore {
    var users: seq<User>
    var nextId: UserId

    function State(): Db
      reads this
    {
      Db(users, nextId)
    }

    constructor ()
      ensures State() == Db([], 0) && Valid(State())
    {
      users, nextId := [], 0;
    }

    /**
     * `findOne({email})`: scans the documents in order and stops at the first
     * one with the email; nothing is found only when no document has it.
     */
    method FindOne(email: Option<string>) returns (found: Option<User>)
      ensures found.None? <==> forall j :: 0 <= j < |users| ==> users[j].email != email
      ensures found.Some? ==>
        exists i :: (0 <= i < |users| && found.value == users[i] && users[i].email == email &&
                     forall j :: 0 <= j < i ==> users[j].email != email)
      ensures found == FindByEmail(users, email)
    {
      var i := 0;
      while i < |users|
        invariant i <= |users|
        invariant forall j :: 0 <= j < i ==> users[j].email != email
      {
        if users[i].email == email {
          FirstMatchAt(users, EmailIs(email), i);
          return Some(users[i]);
        }
        i := i + 1;
      }
      FirstMatchAt(users, EmailIs(email), i);
      found := None;
    }

    method InsertOne(doc: Doc) returns (id: UserId)
      modifies this
      ensures State() == Users.InsertOne(old(State()), doc) && id == old(nextId)
    {
      id := nextId;
      users := users + [User(id, doc.email, doc.role, doc.fields)];
      nextId := nextId + 1;
    }

    /** `updateOne({_id: id}, {$set: {role: "admin"}})` with its matched and modified counts. */
    method PromoteOne(id: UserId) returns (matched: nat, modified: nat)
      modifies this
      ensures users == Users.PromoteOne(old(users), id) && nextId == old(nextId)
      ensures var found := FindById(old(users), id);
        && matched == (if found.Some? then 1 else 0)
        && modified == (if found.Some? && found.value.role != Some(AdminRole) then 1 else 0)
    {
      var k := FirstMatch(users, IdIs(id));
      matched, modified := 0, 0;
      if k < |users| {
        matched := 1;
        if users[k].role != Some(AdminRole) {
          modified := 1;
        }
        users := users[k := users[k].(role := Some(AdminRole))];
      }
    }

    /** `deleteOne({_id: id})` with its deleted count. */
    method DeleteOne(id: UserId) returns (deleted: nat)
      modifies this
      ensures users == Users.DeleteOne(old(users), id) && nextId == old(nextId)
      ensures deleted == if FindById(old(users), id).Some? then 1 else 0
    {
      var k := FirstMatch(users, IdIs(id));
      deleted := 0;
      if k < |users| {
        users := users[..k] + users[k + 1..];
        deleted := 1;
      }
    }
  }

  /** The running server: the users collection and the token verifier. */
  class App {
    const store: UserStore
    const verify: Verifier

    constructor (store: UserStore, verify: Verifier)
      ensures this.store == store && this.verify == verify
    {
      this.store := store;
      this.verify := verify;
    }

    /**
     * `verifyToken`: `None` means `next()` was called, with `req.decoded` set
     * to the decoded claims; a rejection leaves `req.decoded` as it was.
     */
    method VerifyToken(req: Request) returns (rejection: Option<Response>)
      modifies req
      ensures var g := Middleware.VerifyToken(req.authorization, verify);
        && (rejection.None? <==> g.outcome.Proceed?)
        && (g.outcome.Halt? ==> rejection == Some(g.outcome.response) && req.decoded == old(req.decoded))
        && (g.outcome.Proceed? ==> req.decoded == Some(g.outcome.value))
    {
      if !HasHeader(req.authorization) {
        return Some(Denied(401, ForbiddenAccess));
      }
      var token := BearerToken(req.authorization.value);
      var decoded := Verification(token, verify);
      if decoded.None? {
        return Some(Denied(401, ForbiddenAccess));
      }
      req.decoded := decoded;
      rejection := None;
    }

    /** `verifyAdmin`, on a request `verifyToken` has let through. */
    method VerifyAdmin(req: Request) returns (rejection: Option<Response>)
      requires req.decoded.Some?
      ensures var g := Middleware.VerifyAdmin(req.decoded.value, store.users);
        rejection == if g.outcome.Halt? then Some(g.outcome.response) else None
    {
      var user := store.FindOne(req.decoded.value.email);
      var isAdmin := IsAdmin(user);
      if !isAdmin {
        return Some(Denied(403, ForbiddenAccess));
      }
      rejection := None;
    }

    /** `GET /users`. */
    method GetUsers(req: Request) returns (res: Response)
      modifies req
      ensures var g := Middleware.VerifyToken(req.authorization, verify);
        req.decoded == if g.outcome.Proceed? then Some(g.outcome.value) else old(req.decoded)
      ensures res == AdminRoute(req.authorization, verify, store.State(), ListAll).response
    {
      var rejection := VerifyToken(req);
      if rejection.Some? {
        return rejection.value;
      }
      rejection := VerifyAdmin(req);
      if rejection.Some? {
        return rejection.value;
      }
      res := Response(200, UserList(store.users));
    }

    /** `GET /users/admin/:email`. */
    method GetAdminStatus(req: Request, email: string) returns (res: Response)
      modifies req
      ensures var g := Middleware.VerifyToken(req.authorization, verify);
        req.decoded == if g.outcome.Proceed? then Some(g.outcome.value) else old(req.decoded)
      ensures res == AdminStatusRoute(req.authorization, verify, store.State(), email).response
    {
      var rejection := VerifyToken(req);
      if rejection.Some? {
        return rejection.value;
      }
      if Some(email) != req.decoded.value.email {
        return Denied(403, UnauthorizedAccess);
      }
      var user := store.FindOne(Some(email));
      var admin := false;
      if user.Some? {
        admin := IsAdmin(user);
      }
      res := Response(200, AdminFlag(admin));
    }

    /** `POST /users`. */
    method PostUsers(doc: Doc) returns (res: Response)
      requires Valid(store.State())
      modifies store
      ensures var x := Routes.PostUsers(old(store.State()), doc);
        res == x.response && store.State() == x.db
      ensures Valid(store.State())
    {
      var existing := store.FindOne(doc.email);
      if existing.Some? {
        return Response(200, InsertAck(Some(AlreadyStored), None));
      }
      var id := store.InsertOne(doc);
      res := Response(200, InsertAck(None, Some(id)));
    }

    /** `PATCH /users/admin/:id`. */
    method PatchMakeAdmin(req: Request, id: UserId) returns (res: Response)
      requires Valid(store.State())
      modifies req, store
      ensures var g := Middleware.VerifyToken(req.authorization, verify);
        req.decoded == if g.outcome.Proceed? then Some(g.outcome.value) else old(req.decoded)
      ensures var x := AdminRoute(req.authorization, verify, old(store.State()), MakeAdmin(id));
        res == x.response && store.State() == x.db
      ensures Valid(store.State())
    {
      AdminRouteKeepsValid(req.authorization, verify, store.State(), MakeAdmin(id));
      var rejection := VerifyToken(req);
      if rejection.Some? {
        return rejection.value;
      }
      rejection := VerifyAdmin(req);
      if rejection.Some? {
        return rejection.value;
      }
      var matched, modified := store.PromoteOne(id);
      res := Response(200, UpdateAck(matched, modified));
    }

    /** `DELETE /users/:id`. */
    method DeleteUser(req: Request, id: UserId) returns (res: Response)
      requires Valid(store.State())
      modifies req, store
      ensures var g := Middleware.VerifyToken(req.authorization, verify);
        req.decoded == if g.outcome.Proceed? then Some(g.outcome.value) else old(req.decoded)
      ensures var x := AdminRoute(req.authorization, verify, old(store.State()), Remove(id));
        res == x.response && store.State() == x.db
      ensures Valid(store.State())
    {
      AdminRouteKeepsValid(req.authorization, verify, store.State(), Remove(id));
      var rejection := VerifyToken(req);
      if rejection.Some? {
        return rejection.value;
      }
      rejection := VerifyAdmin(req);
      if rejection.Some? {
        return rejection.value;
      }
      var deleted := store.DeleteOne(id);
      res := Response(200, DeleteAck(deleted));
    }
  }
}
