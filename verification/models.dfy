/**
 * The logged-in user: a `User` built from a stored user document, its
 * lookup by the id the session keeps, and the role test.
 */
module Models {
  import opened Common
  import opened Documents
  import Decorators

  /** The display name: the stored `name`, falling back to `email` when the field is absent. */
  function DisplayName(doc: UserDoc): (name: Option<string>)
    ensures doc.name.Some? ==> name == doc.name
    ensures doc.name.None? ==> name == doc.email
  {
    if doc.name.Some? then doc.name else doc.email
  }

  /** The roles: the stored list, or none when the field is absent. */
  function RolesOf(doc: UserDoc): (roles: seq<string>)
    ensures doc.roles.Some? ==> roles == doc.roles.value
    ensures doc.roles.None? ==> roles == []
  {
    if doc.roles.Some? then doc.roles.value else []
  }

  /**
   * `find_one({'_id': ObjectId(userId)})`: the position of the user the id
   * names; text that is not an ObjectId raises, which the lookup swallows.
   */
  function LookupUser(users: seq<UserDoc>, userId: string): (r: Option<nat>)
    ensures r.Some? ==> r.value < |users| && ParseObjectId(userId) == Some(r.value)
    ensures r.None? <==> ParseObjectId(userId).None? || ParseObjectId(userId).value >= |users|
  {
    match ParseObjectId(userId)
    case None => None
    case Some(k) => if k < |users| then Some(k) else None
  }

  /** The id a `User` carries finds that same user again on the next request. */
  lemma LookupOwnId(users: seq<UserDoc>, i: nat)
    requires i < |users| && i < Pow16(ObjectIdDigits)
    ensures LookupUser(users, ObjectIdText(i)) == Some(i)
  {
    ObjectIdRoundTrip(i);
  }

  class User {
    var id: string
    var email: Option<string>
    var name: Option<string>
    var password: Option<string>
    var roles: seq<string>

    /** `User(user_data)` for the document stored at position `oid`. */
    constructor (doc: UserDoc, oid: nat)
      ensures id == ObjectIdText(oid)
      ensures email == doc.email && password == doc.password
      ensures name == DisplayName(doc) && roles == RolesOf(doc)
    {
      id := ObjectIdText(oid);
      email := doc.email;
      name := DisplayName(doc);
      password := doc.password;
      roles := RolesOf(doc);
    }

    /** `has_role`. */
    predicate HasRole(role: string)
      reads this
    {
      role in roles
    }

    /** The user as the role guard sees it once logged in. */
    function AsCurrentUser(): (u: Decorators.CurrentUser)
      reads this
      ensures u.Authenticated? && u.roles == roles
    {
      Decorators.Authenticated(roles)
    }

    /**
     * `User.get(db, user_id)`: `null` when the id is not an ObjectId or names
     * no user, otherwise a fresh `User` for the stored document. Its `id` is
     * the canonical lower-case text, which may differ in case from `userId`.
     */
    static method Get(db: Db, userId: string) returns (u: User?)
      ensures u == null <==> LookupUser(db.users, userId).None?
      ensures u != null ==>
        var k := LookupUser(db.users, userId).value;
        && fresh(u)
        && u.id == ObjectIdText(k)
        && u.email == db.users[k].email && u.password == db.users[k].password
        && u.name == DisplayName(db.users[k]) && u.roles == RolesOf(db.users[k])
    {
      var k := LookupUser(db.users, userId);
      if k.None? {
        return null;
      }
      u := new User(db.users[k.value], k.value);
    }
  }

  /** A user whose document lists `admin` passes every role guard. */
  lemma AdminUserPassesGuard(
    u: User, required: seq<string>, url: string, referrer: Option<string>)
    requires u.HasRole(Decorators.AdminRole)
    ensures Decorators.Guard(u.AsCurrentUser(), required, url, referrer) == Decorators.Allowed
  {
  }

  /** `has_role(r)` for a listed role is exactly what admits a non-admin user. */
  lemma HasListedRoleAdmits(
    u: User, required: seq<string>, url: string, referrer: Option<string>)
    requires !u.HasRole(Decorators.AdminRole)
    ensures Decorators.Guard(u.AsCurrentUser(), required, url, referrer) == Decorators.Allowed
            <==> exists i :: 0 <= i < |required| && u.HasRole(required[i])
  {
  }
}
