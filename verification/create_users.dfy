/**
 * The seeding script: with the connection settings present, each of the
 * five initial users is either refreshed (roles and name) when its email is
 * already stored, or inserted with its password hashed.
 */
module CreateUsers {
  import opened Common
  import opened Documents

  /** `MONGO_URI` and `MONGO_DB_NAME` as read from the environment. */
  datatype Env = Env(mongoUri: Option<string>, dbName: Option<string>)

  /** One entry of the script's user list. */
  datatype SeedUser = SeedUser(email: string, name: string, roles: seq<string>, password: string)

  const DefaultPassword := "Password123"

  const InitialUsers: seq<SeedUser> := [
    SeedUser("ricardo.williams@hcaircon.com", "Ricardo Williams", ["admin", "sales"], DefaultPassword),
    SeedUser("comfort.motebejane@hcaircon.com", "Comfort Motebejane", ["qc"], DefaultPassword),
    SeedUser("eric.mashau@hcaircon.com", "Eric Mashau", ["admin"], DefaultPassword),
    SeedUser("dispatch.user@yourapp.com", "[Dispatch Name]", ["dispatch"], DefaultPassword),
    SeedUser("ir.user@yourapp.com", "[IR User Name]", ["ir"], DefaultPassword)
  ]

  /** `users.find_one({'email': e})`, scanning in stored order from `from`. */
  function FindByEmailFrom(users: seq<UserDoc>, e: string, from: nat): (r: Option<nat>)
    requires from <= |users|
    ensures r.Some? ==> from <= r.value < |users| && users[r.value].email == Some(e)
    ensures r.Some? ==> forall k :: from <= k < r.value ==> users[k].email != Some(e)
    ensures r.None? ==> forall k :: from <= k < |users| ==> users[k].email != Some(e)
    decreases |users| - from
  {
    if from == |users| then None
    else if users[from].email == Some(e) then Some(from)
    else FindByEmailFrom(users, e, from + 1)
  }

  /** The first stored user with email `e`, if any. */
  function FindByEmail(users: seq<UserDoc>, e: string): (r: Option<nat>)
    ensures r.Some? ==> r.value < |users| && users[r.value].email == Some(e)
    ensures r.Some? ==> forall k :: 0 <= k < r.value ==> users[k].email != Some(e)
    ensures r.None? <==> forall k :: 0 <= k < |users| ==> users[k].email != Some(e)
  {
    FindByEmailFrom(users, e, 0)
  }

  /** The document inserted for a new seed user: its password replaced by its hash. */
  function NewUserDoc(s: SeedUser, hash: string -> string): UserDoc {
    UserDoc(Some(s.email), Some(s.name), Some(hash(s.password)), Some(s.roles))
  }

  /**
   * One pass of the seeding loop: an existing user gets the seed's roles and
   * name and keeps everything else; a new one is appended.
   */
  function SeedOne(users: seq<UserDoc>, s: SeedUser, hash: string -> string): (r: seq<UserDoc>)
    ensures FindByEmail(users, s.email).Some? ==> |r| == |users|
    ensures |r| >= |users|
    ensures forall i :: 0 <= i < |users| && users[i].email != Some(s.email) ==> r[i] == users[i]
    ensures FindByEmail(users, s.email).None? ==> r == users + [NewUserDoc(s, hash)]
  {
    match FindByEmail(users, s.email)
    case Some(k) => users[k := users[k].(roles := Some(s.roles), name := Some(s.name))]
    case None => users + [NewUserDoc(s, hash)]
  }

  /** One pass keeps every stored user's email and password. */
  lemma SeedOneKeepsExisting(users: seq<UserDoc>, s: SeedUser, hash: string -> string)
    ensures |SeedOne(users, s, hash)| >= |users|
    ensures forall k :: 0 <= k < |users| ==>
      SeedOne(users, s, hash)[k].email == users[k].email && SeedOne(users, s, hash)[k].password == users[k].password
  {
  }

  /** After one pass, the first user with the seed's email carries the seed's roles and name. */
  lemma SeedOneStoresSeed(users: seq<UserDoc>, s: SeedUser, hash: string -> string)
    ensures FindByEmail(SeedOne(users, s, hash), s.email).Some?
    ensures var r := SeedOne(users, s, hash);
      r[FindByEmail(r, s.email).value].roles == Some(s.roles) && r[FindByEmail(r, s.email).value].name == Some(s.name)
  {
    var r := SeedOne(users, s, hash);
    match FindByEmail(users, s.email)
    case Some(k) =>
      assert r[k].email == Some(s.email);
      assert forall j :: 0 <= j < k ==> r[j] == users[j];
      assert FindByEmail(r, s.email) == Some(k);
    case None =>
      assert r[|users|].email == Some(s.email);
      assert FindByEmail(r, s.email) == Some(|users|);
  }

  /** The whole loop over `seeds`, in list order. */
  function SeedAll(users: seq<UserDoc>, seeds: seq<SeedUser>, hash: string -> string): seq<UserDoc> {
    if seeds == [] then users
    else SeedOne(SeedAll(users, seeds[..|seeds| - 1], hash), seeds[|seeds| - 1], hash)
  }

  /** Seeding never produces two users with one email. */
  lemma SeedOneKeepsEmailsUnique(users: seq<UserDoc>, s: SeedUser, hash: string -> string)
    requires EmailsUnique(users)
    ensures EmailsUnique(SeedOne(users, s, hash))
  {
  }

  /** The unique email index never rejects an insert of the seeding loop. */
  lemma {:induction false} SeedAllKeepsEmailsUnique(users: seq<UserDoc>, seeds: seq<SeedUser>, hash: string -> string)
    requires EmailsUnique(users)
    ensures EmailsUnique(SeedAll(users, seeds, hash))
  {
    if seeds != [] {
      SeedAllKeepsEmailsUnique(users, seeds[..|seeds| - 1], hash);
      SeedOneKeepsEmailsUnique(SeedAll(users, seeds[..|seeds| - 1], hash), seeds[|seeds| - 1], hash);
    }
  }

  /** Users already stored keep their email and password; only roles and name may change. */
  lemma {:induction false} SeedAllKeepsPasswords(users: seq<UserDoc>, seeds: seq<SeedUser>, hash: string -> string)
    ensures |SeedAll(users, seeds, hash)| >= |users|
    ensures forall k :: 0 <= k < |users| ==>
      SeedAll(users, seeds, hash)[k].email == users[k].email
      && SeedAll(users, seeds, hash)[k].password == users[k].password
  {
    if seeds != [] {
      SeedAllKeepsPasswords(users, seeds[..|seeds| - 1], hash);
      SeedOneKeepsExisting(SeedAll(users, seeds[..|seeds| - 1], hash), seeds[|seeds| - 1], hash);
    }
  }

  /** After seeding, every seed's email is stored. */
  lemma {:induction false} SeedAllStoresEverySeed(users: seq<UserDoc>, seeds: seq<SeedUser>, hash: string -> string)
    ensures forall j :: 0 <= j < |seeds| ==> FindByEmail(SeedAll(users, seeds, hash), seeds[j].email).Some?
  {
    if seeds != [] {
      var init := seeds[..|seeds| - 1];
      var mid := SeedAll(users, init, hash);
      var r := SeedAll(users, seeds, hash);
      SeedAllStoresEverySeed(users, init, hash);
      SeedOneKeepsExisting(mid, seeds[|seeds| - 1], hash);
      SeedOneStoresSeed(mid, seeds[|seeds| - 1], hash);
      forall j | 0 <= j < |seeds|
        ensures FindByEmail(r, seeds[j].email).Some?
      {
        if j < |seeds| - 1 {
          assert seeds[j] == init[j];
          var k := FindByEmail(mid, seeds[j].email).value;
          assert r[k].email == Some(seeds[j].email);
        }
      }
    }
  }

  /** When every seed's email is already stored, seeding inserts nobody. */
  lemma {:induction false} SeedAllInsertsNoneWhenPresent(users: seq<UserDoc>, seeds: seq<SeedUser>, hash: string -> string)
    requires forall j :: 0 <= j < |seeds| ==> FindByEmail(users, seeds[j].email).Some?
    ensures |SeedAll(users, seeds, hash)| == |users|
  {
    if seeds != [] {
      var init := seeds[..|seeds| - 1];
      var last := seeds[|seeds| - 1];
      var mid := SeedAll(users, init, hash);
      forall j | 0 <= j < |init|
        ensures FindByEmail(users, init[j].email).Some?
      {
        assert init[j] == seeds[j];
      }
      SeedAllInsertsNoneWhenPresent(users, init, hash);
      SeedAllKeepsPasswords(users, init, hash);
      var k := FindByEmail(users, last.email).value;
      assert mid[k].email == Some(last.email);
    }
  }

  /** Running the script a second time creates no user. */
  lemma SeedRerunAddsNoUsers(users: seq<UserDoc>, seeds: seq<SeedUser>, hash: string -> string)
    ensures |SeedAll(SeedAll(users, seeds, hash), seeds, hash)| == |SeedAll(users, seeds, hash)|
  {
    SeedAllStoresEverySeed(users, seeds, hash);
    SeedAllInsertsNoneWhenPresent(SeedAll(users, seeds, hash), seeds, hash);
  }

  /** The documents a run inserts for seeds none of which is stored yet, in list order. */
  function NewUserDocs(seeds: seq<SeedUser>, hash: string -> string): (docs: seq<UserDoc>)
    ensures |docs| == |seeds|
    ensures forall i :: 0 <= i < |seeds| ==> docs[i] == NewUserDoc(seeds[i], hash)
  {
    if seeds == [] then [] else NewUserDocs(seeds[..|seeds| - 1], hash) + [NewUserDoc(seeds[|seeds| - 1], hash)]
  }

  /** An email neither stored nor among the new documents is still absent after they are appended. */
  lemma AbsentAfterNewDocs(users: seq<UserDoc>, seeds: seq<SeedUser>, e: string, hash: string -> string)
    requires FindByEmail(users, e).None?
    requires forall j :: 0 <= j < |seeds| ==> seeds[j].email != e
    ensures FindByEmail(users + NewUserDocs(seeds, hash), e).None?
  {
    var docs := NewUserDocs(seeds, hash);
    assert forall j :: 0 <= j < |docs| ==> docs[j].email != Some(e);
  }

  /** The last seed of a run whose earlier seeds were all fresh is appended after them. */
  lemma SeedFreshStep(users: seq<UserDoc>, seeds: seq<SeedUser>, hash: string -> string)
    requires seeds != []
    requires SeedAll(users, seeds[..|seeds| - 1], hash) == users + NewUserDocs(seeds[..|seeds| - 1], hash)
    requires FindByEmail(users + NewUserDocs(seeds[..|seeds| - 1], hash), seeds[|seeds| - 1].email).None?
    ensures SeedAll(users, seeds, hash) == users + NewUserDocs(seeds, hash)
  {
    var init, last := seeds[..|seeds| - 1], seeds[|seeds| - 1];
    assert SeedAll(users, seeds, hash) == SeedAll(users, init, hash) + [NewUserDoc(last, hash)];
    assert NewUserDocs(seeds, hash) == NewUserDocs(init, hash) + [NewUserDoc(last, hash)];
  }

  /**
   * Seeds with distinct emails, none of them stored, are all inserted in
   * list order with their passwords hashed, and nothing stored changes.
   */
  lemma {:induction false} SeedAllInsertsFresh(users: seq<UserDoc>, seeds: seq<SeedUser>, hash: string -> string)
    requires forall j :: 0 <= j < |seeds| ==> FindByEmail(users, seeds[j].email).None?
    requires forall i, j :: 0 <= i < j < |seeds| ==> seeds[i].email != seeds[j].email
    ensures SeedAll(users, seeds, hash) == users + NewUserDocs(seeds, hash)
  {
    if seeds != [] {
      var init := seeds[..|seeds| - 1];
      var last := seeds[|seeds| - 1];
      forall j | 0 <= j < |init| ensures FindByEmail(users, init[j].email).None? && init[j].email != last.email {
        assert init[j] == seeds[j];
      }
      SeedAllInsertsFresh(users, init, hash);
      AbsentAfterNewDocs(users, init, last.email, hash);
      SeedFreshStep(users, seeds, hash);
    }
  }

  /** On an empty store the script inserts exactly the five users, passwords hashed. */
  lemma EmptyStoreSeeding(hash: string -> string)
    ensures SeedAll([], InitialUsers, hash) == NewUserDocs(InitialUsers, hash)
    ensures |SeedAll([], InitialUsers, hash)| == 5
  {
    SeedAllInsertsFresh([], InitialUsers, hash);
  }

  /**
   * The seed entry after its loop pass: its password is replaced by the hash
   * exactly when its email was not yet stored.
   */
  function SeededEntry(users0: seq<UserDoc>, seeds0: seq<SeedUser>, i: nat, hash: string -> string): SeedUser
    requires i < |seeds0|
  {
    if FindByEmail(SeedAll(users0, seeds0[..i], hash), seeds0[i].email).Some? then seeds0[i]
    else seeds0[i].(password := hash(seeds0[i].password))
  }

  /** The seeding loop over the script's list, hashing passwords in the list itself. */
  method SeedUsers(db: Db, seeds: array<SeedUser>, hash: string -> string)
    requires db.Valid()
    modifies db`users, seeds
    ensures db.Valid()
    ensures db.users == SeedAll(old(db.users), old(seeds[..]), hash)
    ensures forall i :: 0 <= i < seeds.Length ==> seeds[i] == SeededEntry(old(db.users), old(seeds[..]), i, hash)
  {
    ghost var users0, seeds0 := db.users, seeds[..];
    for i := 0 to seeds.Length
      invariant db.Valid()
      invariant db.users == SeedAll(users0, seeds0[..i], hash)
      invariant forall j :: i <= j < seeds.Length ==> seeds[j] == seeds0[j]
      invariant forall j :: 0 <= j < i ==> seeds[j] == SeededEntry(users0, seeds0, j, hash)
    {
      assert seeds0[..i + 1][..i] == seeds0[..i];
      var userData := seeds[i];
      var found := FindByEmail(db.users, userData.email);
      if found.Some? {
        db.SetUserRolesAndName(found.value, userData.roles, userData.name);
        continue;
      }
      seeds[i] := userData.(password := hash(userData.password));
      db.InsertUser(UserDoc(Some(userData.email), Some(userData.name), Some(seeds[i].password), Some(userData.roles)));
    }
    assert seeds0[..seeds.Length] == seeds0;
  }

  /**
   * `create_initial_users`: without both connection settings nothing is
   * touched; otherwise the five initial users are seeded.
   */
  method CreateInitialUsers(db: Db, env: Env, hash: string -> string) returns (ran: bool)
    requires db.Valid()
    modifies db`users
    ensures db.Valid()
    ensures ran <==> Truthy(env.mongoUri) && Truthy(env.dbName)
    ensures ran ==> db.users == SeedAll(old(db.users), InitialUsers, hash)
    ensures !ran ==> db.users == old(db.users)
  {
    if !Truthy(env.mongoUri) || !Truthy(env.dbName) {
      return false;
    }
    var seeds := new SeedUser[|InitialUsers|](i requires 0 <= i < |InitialUsers| => InitialUsers[i]);
    assert seeds[..] == InitialUsers;
    SeedUsers(db, seeds, hash);
    ran := true;
  }
}
