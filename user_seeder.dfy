/** `UserSeeder.run`: the admin account and the default user account, each
    created only when its e-mail address is not registered yet. Password
    hashing is not modelled: the stored hashes are parameters. */
module UserSeeder {
  import opened Records
  import opened Database

  const AdminEmail: Email := "admin@ukschat.com"
  const DefaultUserEmail: Email := "user@ukschat.com"

  /** The users table after one guarded insert: the old accounts kept as
      they were, and one account added, with the next key, exactly when
      `email` is not registered; afterwards `email` is registered. */
  function WithAccount(users: seq<User>, email: Email, hash: string, role: string, now: int): (r: seq<User>)
    ensures |users| <= |r| <= |users| + 1 && r[..|users|] == users
    ensures |r| == |users| + 1 <==> forall j :: 0 <= j < |users| ==> users[j].email != email
    ensures |r| == |users| + 1 ==>
      r[|users|].id == |users| + 1 && r[|users|].email == email && r[|users|].hashedPassword == hash
      && r[|users|].role == role && r[|users|].createdAt == now
    ensures UserByEmail(r, email).Some?
  {
    if UserByEmail(users, email).Some? then users
    else
      var r := users + [User(|users| + 1, email, hash, role, now)];
      assert r[..|users|] == users && r[|users|].email == email;
      r
  }

  /** The users table after a run. */
  function SeededUsers(users: seq<User>, adminHash: string, userHash: string, now: int): seq<User> {
    WithAccount(WithAccount(users, AdminEmail, adminHash, AdminRole, now),
                DefaultUserEmail, userHash, UserRole, now)
  }

  /** A guarded insert keeps the table's constraints: keys are positions
      and e-mail addresses unique. */
  lemma WithAccountKeepsUsers(users: seq<User>, email: Email, hash: string, role: string, now: int)
    requires UserIdsArePositions(users) && UniqueEmails(users)
    ensures var r := WithAccount(users, email, hash, role, now);
      UserIdsArePositions(r) && UniqueEmails(r)
  {
    var r := WithAccount(users, email, hash, role, now);
    if |r| == |users| + 1 {
      assert r == users + [r[|users|]];
    }
  }

  /** After a run both accounts exist, every earlier account is kept as it
      was, and an account the run created has the role the seeder gives it. */
  lemma SeededAccounts(users: seq<User>, adminHash: string, userHash: string, now: int)
    requires UserIdsArePositions(users) && UniqueEmails(users)
    ensures var r := SeededUsers(users, adminHash, userHash, now);
      && UserIdsArePositions(r) && UniqueEmails(r)
      && |users| <= |r| <= |users| + 2 && r[..|users|] == users
      && UserByEmail(r, AdminEmail).Some? && UserByEmail(r, DefaultUserEmail).Some?
      && (UserByEmail(users, AdminEmail).None? ==> r[UserByEmail(r, AdminEmail).value].role == AdminRole)
      && (UserByEmail(users, DefaultUserEmail).None? ==> r[UserByEmail(r, DefaultUserEmail).value].role == UserRole)
  {
    var mid := WithAccount(users, AdminEmail, adminHash, AdminRole, now);
    WithAccountKeepsUsers(users, AdminEmail, adminHash, AdminRole, now);
    WithAccountKeepsUsers(mid, DefaultUserEmail, userHash, UserRole, now);
    var r := SeededUsers(users, adminHash, userHash, now);
    assert r[..|mid|] == mid;
    assert r[..|users|] == mid[..|users|];
    var a := UserByEmail(mid, AdminEmail).value;
    assert r[a] == mid[a];
    assert UserByEmail(r, AdminEmail) == Some(a) by {
      assert forall j :: 0 <= j < a ==> r[j] == mid[j];
    }
    if UserByEmail(users, AdminEmail).None? {
      assert a == |users|;
    }
    if UserByEmail(users, DefaultUserEmail).None? {
      assert UserByEmail(mid, DefaultUserEmail).None?;
    }
  }

  /** A second run, with any hashes at any time, adds no users. */
  lemma SeedUsersIdempotent(users: seq<User>, adminHash: string, userHash: string, now: int,
                            adminHash2: string, userHash2: string, later: int)
    requires UserIdsArePositions(users) && UniqueEmails(users)
    ensures var once := SeededUsers(users, adminHash, userHash, now);
      SeededUsers(once, adminHash2, userHash2, later) == once
  {
    SeededAccounts(users, adminHash, userHash, now);
  }

  /** `UserSeeder.run` */
  method SeedUsers(db: Db, adminHash: string, userHash: string, now: int)
    requires db.Valid()
    modifies db
    ensures db.Valid()
    ensures db.users == SeededUsers(old(db.users), adminHash, userHash, now)
    ensures db.plans == old(db.plans) && db.subs == old(db.subs) && db.payments == old(db.payments)
    ensures db.messages == old(db.messages) && db.usage == old(db.usage)
  {
    var users := db.users;
    if UserByEmail(users, AdminEmail).None? {
      var admin := User(|users| + 1, AdminEmail, adminHash, AdminRole, now);
      AppendUserKeepsValid(users, db.plans, db.subs, db.payments, db.messages, db.usage, admin);
      users := users + [admin];
    }
    if UserByEmail(users, DefaultUserEmail).None? {
      var user := User(|users| + 1, DefaultUserEmail, userHash, UserRole, now);
      AppendUserKeepsValid(users, db.plans, db.subs, db.payments, db.messages, db.usage, user);
      users := users + [user];
    }
    db.users := users;
  }
}
