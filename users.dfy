/**
 * The users collection and the four store operations the routes use on it:
 * `findOne({email})`, `insertOne(doc)`, `updateOne({_id}, {$set: {role: "admin"}})`
 * and `deleteOne({_id})`.
 *
 * The collection is a sequence of documents; `findOne`, `updateOne` and
 * `deleteOne` act on the FIRST matching document in the store's natural
 * order, which the model takes to be insertion order. Ids are opaque; the store hands out fresh ones from a counter.
 * A missing `email` (JavaScript `undefined`, sent to the store as `null`)
 * is `None` and matches exactly the documents that have no email.
 */
module Users {
  import opened Wrappers

  type UserId = nat

  const AdminRole: string := "admin"

  /** A request body for `POST /users`, stored as it is: `email`, an optional `role`, and any other fields. */
  datatype Doc = Doc(email: Option<string>, role: Option<string>, fields: map<string, string>)

  /** A stored user document. */
  datatype User = User(id: UserId, email: Option<string>, role: Option<string>, fields: map<string, string>)

  /** The collection and the next fresh id. */
  datatype Db = Db(users: seq<User>, nextId: UserId)

  predicate UniqueEmails(users: seq<User>)
  {
    forall i, j :: 0 <= i < j < |users| ==> users[i].email != users[j].email
  }

  predicate UniqueIds(users: seq<User>)
  {
    forall i, j :: 0 <= i < j < |users| ==> users[i].id != users[j].id
  }

  /**
   * What the routes keep true of the collection: ids are unique and below the
   * counter (the store's own guarantee), and no two users share an email
   * (checked only by `POST /users`; the store itself does not enforce it).
   */
  predicate Valid(db: Db)
  {
    && UniqueIds(db.users)
    && UniqueEmails(db.users)
    && forall i :: 0 <= i < |db.users| ==> db.users[i].id < db.nextId
  }

  /** A store filter: `{email}` or `{_id}`. */
  datatype Query = EmailIs(email: Option<string>) | IdIs(id: UserId)

  predicate Matches(user: User, query: Query)
  {
    match query
    case EmailIs(email) => user.email == email
    case IdIs(id) => user.id == id
  }

  /** Index of the first document the filter matches, or `|users|`: the one `findOne`, `updateOne` and `deleteOne` act on. */
  function FirstMatch(users: seq<User>, query: Query): (i: nat)
    ensures i <= |users|
    ensures i < |users| ==> Matches(users[i], query)
    ensures forall j :: 0 <= j < i ==> !Matches(users[j], query)
  {
    if users == [] then 0
    else if Matches(users[0], query) then 0
    else 1 + FirstMatch(users[1..], query)
  }

  /** The first match is found exactly where the non-matching prefix ends. */
  lemma FirstMatchAt(users: seq<User>, query: Query, i: nat)
    requires i <= |users|
    requires forall j :: 0 <= j < i ==> !Matches(users[j], query)
    requires i < |users| ==> Matches(users[i], query)
    ensures FirstMatch(users, query) == i
  {
  }

  /** `findOne({email})`: the first document with that email, if there is one. */
  function FindByEmail(users: seq<User>, email: Option<string>): (found: Option<User>)
    ensures found.Some? <==> exists i :: 0 <= i < |users| && users[i].email == email
    ensures found.Some? ==> found.value in users && found.value.email == email
  {
    var i := FirstMatch(users, EmailIs(email));
    if i < |users| then Some(users[i]) else None
  }

  /** The first document with this id, the one `updateOne` and `deleteOne` select. */
  function FindById(users: seq<User>, id: UserId): (found: Option<User>)
    ensures found.Some? <==> exists i :: 0 <= i < |users| && users[i].id == id
    ensures found.Some? ==> found.value in users && found.value.id == id
  {
    var i := FirstMatch(users, IdIs(id));
    if i < |users| then Some(users[i]) else None
  }

  /** `user?.role === 'admin'`: a record exists and its role is exactly "admin". */
  predicate IsAdmin(user: Option<User>)
  {
    user.Some? && user.value.role == Some(AdminRole)
  }

  /** Some stored user has this email and the admin role. */
  predicate HasAdminRecord(users: seq<User>, email: Option<string>)
  {
    exists i :: 0 <= i < |users| && users[i].email == email && users[i].role == Some(AdminRole)
  }

  /**
   * The role test of the guards looks at the first record with the email;
   * when emails are unique that is the same as asking whether any record
   * with the email is an admin. (Without uniqueness only `==>` holds.)
   */
  lemma AdminLookup(users: seq<User>, email: Option<string>)
    ensures IsAdmin(FindByEmail(users, email)) ==> HasAdminRecord(users, email)
    ensures UniqueEmails(users) ==> (IsAdmin(FindByEmail(users, email)) <==> HasAdminRecord(users, email))
  {
    var i := FirstMatch(users, EmailIs(email));
    if IsAdmin(FindByEmail(users, email)) {
      assert users[i].email == email && users[i].role == Some(AdminRole);
    }
    if UniqueEmails(users) && HasAdminRecord(users, email) {
      var k :| 0 <= k < |users| && users[k].email == email && users[k].role == Some(AdminRole);
      assert i <= k;
      assert i == k;
    }
  }

  /** `insertOne(doc)`: the document, with a fresh id, goes at the end of the collection. */
  function InsertOne(db: Db, doc: Doc): (r: Db)
    ensures r.users == db.users + [User(db.nextId, doc.email, doc.role, doc.fields)]
    ensures r.nextId > db.nextId
  {
    Db(db.users + [User(db.nextId, doc.email, doc.role, doc.fields)], db.nextId + 1)
  }

  /** Inserting a document whose email is not yet stored keeps the collection valid. */
  lemma InsertOneValid(db: Db, doc: Doc)
    requires FindByEmail(db.users, doc.email).None?
    ensures Valid(db) ==> Valid(InsertOne(db, doc))
  {
    if !Valid(db) { return; }
    var r := InsertOne(db, doc).users;
    forall i, j | 0 <= i < j < |r|
      ensures r[i].email != r[j].email && r[i].id != r[j].id
    {
      if j == |db.users| {
        assert r[i] == db.users[i];
      }
    }
  }

  /** `updateOne({_id: id}, {$set: {role: "admin"}})`: the first document with the id gets role "admin". */
  function PromoteOne(users: seq<User>, id: UserId): (r: seq<User>)
    ensures |r| == |users|
    ensures forall i :: 0 <= i < |r| ==>
      r[i].id == users[i].id && r[i].email == users[i].email && r[i].fields == users[i].fields
  {
    var k := FirstMatch(users, IdIs(id));
    if k < |users| then users[k := users[k].(role := Some(AdminRole))] else users
  }

  /**
   * With unique ids: the record with the id, if any, has role "admin"
   * afterwards and its other fields as before; every other record is untouched.
   */
  lemma PromoteOneEffect(users: seq<User>, id: UserId)
    requires UniqueIds(users)
    ensures var r := PromoteOne(users, id);
      forall i :: 0 <= i < |users| ==>
        r[i] == (if users[i].id == id then users[i].(role := Some(AdminRole)) else users[i])
  {
    var k := FirstMatch(users, IdIs(id));
    forall i | 0 <= i < |users| && users[i].id == id
      ensures i == k
    {
      assert k <= i;
    }
  }

  /** Promoting a user keeps the collection valid: ids and emails do not move. */
  lemma PromoteOneValid(db: Db, id: UserId)
    requires Valid(db)
    ensures Valid(db.(users := PromoteOne(db.users, id)))
  {
  }

  /** `deleteOne({_id: id})`: the first document with the id is removed; the others keep their order. */
  function DeleteOne(users: seq<User>, id: UserId): (r: seq<User>)
    ensures FirstMatch(users, IdIs(id)) < |users| ==> |r| == |users| - 1
    ensures FirstMatch(users, IdIs(id)) == |users| ==> r == users
    ensures multiset(r) <= multiset(users)
  {
    var k := FirstMatch(users, IdIs(id));
    if k < |users| then
      assert users == users[..k] + [users[k]] + users[k + 1..];
      users[..k] + users[k + 1..]
    else users
  }

  /** With unique ids: afterwards exactly the users with other ids remain. */
  lemma DeleteOneEffect(users: seq<User>, id: UserId)
    requires UniqueIds(users)
    ensures forall u :: u in DeleteOne(users, id) <==> u in users && u.id != id
  {
    forall u {
      DeleteOneKeeps(users, id, u);
    }
  }

  /** One user's fate under `DeleteOneEffect`. */
  lemma DeleteOneKeeps(users: seq<User>, id: UserId, u: User)
    requires UniqueIds(users)
    ensures u in DeleteOne(users, id) <==> u in users && u.id != id
  {
    if FirstMatch(users, IdIs(id)) < |users| {
      if u in users && u.id != id {
        DeleteOneKeepsOthers(users, id, u);
      }
      if u in DeleteOne(users, id) {
        DeleteOneDropsId(users, id, u);
      }
    }
  }

  lemma DeleteOneKeepsOthers(users: seq<User>, id: UserId, u: User)
    requires FirstMatch(users, IdIs(id)) < |users|
    requires u in users && u.id != id
    ensures u in DeleteOne(users, id)
  {
    var k, r := FirstMatch(users, IdIs(id)), DeleteOne(users, id);
    DeleteOneAt(users, id);
    var i :| 0 <= i < |users| && users[i] == u;
    assert users[k].id == id;
    if i < k { assert r[i] == u; } else { assert r[i - 1] == u; }
  }

  lemma DeleteOneDropsId(users: seq<User>, id: UserId, u: User)
    requires UniqueIds(users)
    requires FirstMatch(users, IdIs(id)) < |users|
    requires u in DeleteOne(users, id)
    ensures u in users && u.id != id
  {
    var k, r := FirstMatch(users, IdIs(id)), DeleteOne(users, id);
    DeleteOneAt(users, id);
    var i :| 0 <= i < |r| && r[i] == u;
    var j := if i < k then i else i + 1;
    assert u == users[j] && j != k;
    assert users[k].id == id && users[k].id != users[j].id;
  }

  /** After deleting the document at the first id match `k`, position `i` holds the old document `i` before `k` and `i + 1` from `k` on. */
  lemma DeleteOneAt(users: seq<User>, id: UserId)
    requires FirstMatch(users, IdIs(id)) < |users|
    ensures var k, r := FirstMatch(users, IdIs(id)), DeleteOne(users, id);
      forall i :: 0 <= i < |r| ==> r[i] == users[if i < k then i else i + 1]
  {
  }

  /** Deleting a user keeps the collection valid. */
  lemma DeleteOneValid(db: Db, id: UserId)
    requires Valid(db)
    ensures Valid(db.(users := DeleteOne(db.users, id)))
  {
    if FirstMatch(db.users, IdIs(id)) < |db.users| {
      DeleteOneAt(db.users, id);
    }
  }
}
