/** The auth router: registration (which grants the free plan when one is
    offered) and login. Password hashing and token signing are not modelled:
    registration receives the already hashed password, login receives the
    verdict of the password check as a function of the stored hash, and the
    access token is represented by the user id it is issued for. */
module Auth {
  import opened Records
  import opened Query
  import opened Database

  /** `filter(Plan.price == 0, Plan.is_active == True).first()` */
  function FreePlan(plans: seq<Plan>): (r: Option<nat>)
    ensures r.Some? ==> r.value < |plans| && plans[r.value].price == 0 && plans[r.value].isActive
    ensures r.Some? ==> forall j :: 0 <= j < r.value ==> plans[j].price != 0 || !plans[j].isActive
    ensures r.None? <==> forall j :: 0 <= j < |plans| ==> plans[j].price != 0 || !plans[j].isActive
  {
    FirstIndex(plans, (p: Plan) => p.price == 0 && p.isActive)
  }

  /** The subscriptions table after `activate_free_plan`: the old rows
      kept as they were, and one row added exactly when an active free plan
      exists: the user's active subscription, with the next key, no tokens
      used and a 30-day period starting now, to the first such plan. */
  function WithFreePlan(subs: seq<Subscription>, plans: seq<Plan>, userId: int, now: int)
    : (r: seq<Subscription>)
    ensures |subs| <= |r| <= |subs| + 1 && r[..|subs|] == subs
    ensures |r| == |subs| <==> forall j :: 0 <= j < |plans| ==> plans[j].price != 0 || !plans[j].isActive
    ensures |r| == |subs| + 1 ==>
      var s := r[|subs|];
      && s.id == |subs| + 1 && IsActiveOf(s, userId) && s.usedTokens == 0
      && s.startDate == now && s.endDate == Some(now + PaidPeriodDays * SecondsPerDay)
      && exists j :: 0 <= j < |plans| && plans[j].id == s.planId && plans[j].price == 0 && plans[j].isActive
           && forall i :: 0 <= i < j ==> plans[i].price != 0 || !plans[i].isActive
  {
    match FreePlan(plans)
    case None => subs
    case Some(k) =>
      var r := subs + [NewSubscription(|subs| + 1, userId, plans[k].id, now, PaidPeriodDays)];
      assert r[..|subs|] == subs;
      r
  }

  /** `activate_free_plan` */
  method ActivateFreePlan(db: Db, userId: int, now: int)
    requires db.Valid() && 1 <= userId <= |db.users|
    modifies db
    ensures db.Valid()
    ensures db.subs == WithFreePlan(old(db.subs), old(db.plans), userId, now)
    ensures db.users == old(db.users) && db.plans == old(db.plans) && db.payments == old(db.payments)
    ensures db.messages == old(db.messages) && db.usage == old(db.usage)
  {
    var free := FreePlan(db.plans);
    if free.Some? {
      var plan := db.plans[free.value];
      db.subs := db.subs + [NewSubscription(|db.subs| + 1, userId, plan.id, now, PaidPeriodDays)];
    }
  }

  /** `register`: an e-mail address already registered is HTTP 400 and
      changes nothing; otherwise a user with role "user" is added and given
      the free plan. */
  method Register(db: Db, email: Email, hashedPassword: string, now: int) returns (r: Result<User>)
    requires db.Valid()
    modifies db
    ensures db.Valid()
    ensures db.plans == old(db.plans) && db.payments == old(db.payments)
    ensures db.messages == old(db.messages) && db.usage == old(db.usage)
    ensures UserByEmail(old(db.users), email).Some? ==>
              r == Err(BadRequest) && db.users == old(db.users) && db.subs == old(db.subs)
    ensures UserByEmail(old(db.users), email).None? ==>
      var user := User(|old(db.users)| + 1, email, hashedPassword, UserRole, now);
      && r == Ok(user)
      && db.users == old(db.users) + [user]
      && db.subs == WithFreePlan(old(db.subs), old(db.plans), user.id, now)
  {
    if UserByEmail(db.users, email).Some? {
      return Err(BadRequest);
    }
    var user := User(|db.users| + 1, email, hashedPassword, UserRole, now);
    db.users := db.users + [user];
    ActivateFreePlan(db, user.id, now);
    r := Ok(user);
  }

  /** What `/auth/login` answers; `subject` stands for the signed access token. */
  datatype LoginReply = LoginReply(subject: int, tokenType: string, role: string, email: Email)

  /** `login`: an unknown e-mail address or a failed password check is HTTP
      401; otherwise the answer carries the stored user's id, role and e-mail. */
  function Login(users: seq<User>, email: Email, passwordMatches: string -> bool): (r: Result<LoginReply>)
    ensures r.Err? ==> r == Err(Unauthorized)
    ensures r.Err? <==> UserByEmail(users, email).None?
                        || !passwordMatches(users[UserByEmail(users, email).value].hashedPassword)
    ensures r.Ok? ==> exists j :: 0 <= j < |users| && users[j].email == email
                        && r.value == LoginReply(users[j].id, "bearer", users[j].role, users[j].email)
  {
    match UserByEmail(users, email)
    case None => Err(Unauthorized)
    case Some(k) =>
      if passwordMatches(users[k].hashedPassword)
      then Ok(LoginReply(users[k].id, "bearer", users[k].role, users[k].email))
      else Err(Unauthorized)
  }

  /** In a table with unique e-mail addresses a successful login reports the
      one user registered under that address. */
  lemma LoginFindsTheAccount(users: seq<User>, email: Email, passwordMatches: string -> bool, j: nat)
    requires UniqueEmails(users)
    requires j < |users| && users[j].email == email
    requires passwordMatches(users[j].hashedPassword)
    ensures Login(users, email, passwordMatches) == Ok(LoginReply(users[j].id, "bearer", users[j].role, email))
  {
  }
}
