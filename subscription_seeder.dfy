/** `SubscriptionSeeder`: `create_subscription` inserts a 365-day active
    subscription unless the user already has one, of any status, for that
    plan; `run` subscribes the admin account to "Pro Plus" and the default
    account to the first plan with price 0, each only when both records
    exist. */
module SubscriptionSeeder {
  import opened Records
  import opened Query
  import opened Database
  import opened UserSeeder
  import opened PlanSeeder

  const ProPlusName: string := "Pro Plus"

  /** The existence query: the first subscription of the user for the plan,
      whatever its status. */
  function ExistingSubscription(subs: seq<Subscription>, userId: int, planId: int): (r: Option<nat>)
    ensures r.Some? ==> r.value < |subs| && subs[r.value].userId == userId && subs[r.value].planId == planId
    ensures r.None? <==> forall j :: 0 <= j < |subs| ==> subs[j].userId != userId || subs[j].planId != planId
  {
    FirstIndex(subs, (s: Subscription) => s.userId == userId && s.planId == planId)
  }

  /** The subscriptions table after `create_subscription`: the old rows
      kept as they were, and one row added exactly when the user has no
      subscription for the plan: an active one, with the next key, no tokens
      used and a 365-day period starting now. Afterwards the user has a
      subscription for the plan. */
  function WithSeededSubscription(subs: seq<Subscription>, userId: int, planId: int, now: int)
    : (r: seq<Subscription>)
    ensures |subs| <= |r| <= |subs| + 1 && r[..|subs|] == subs
    ensures |r| == |subs| + 1 <==> forall j :: 0 <= j < |subs| ==> subs[j].userId != userId || subs[j].planId != planId
    ensures |r| == |subs| + 1 ==>
      var s := r[|subs|];
      && s.id == |subs| + 1 && IsActiveOf(s, userId) && s.planId == planId && s.usedTokens == 0
      && s.startDate == now && s.endDate == Some(now + SeedPeriodDays * SecondsPerDay)
    ensures ExistingSubscription(r, userId, planId).Some?
  {
    if ExistingSubscription(subs, userId, planId).Some? then subs
    else
      var r := subs + [NewSubscription(|subs| + 1, userId, planId, now, SeedPeriodDays)];
      assert r[..|subs|] == subs && r[|subs|].userId == userId && r[|subs|].planId == planId;
      r
  }

  /** Calling `create_subscription` a second time with the same user and
      plan, at any time, adds nothing. */
  lemma CreateSubscriptionTwice(subs: seq<Subscription>, userId: int, planId: int, first: int, second: int)
    ensures var once := WithSeededSubscription(subs, userId, planId, first);
      WithSeededSubscription(once, userId, planId, second) == once
  {
  }

  /** `filter(Plan.name == "Pro Plus").first()` */
  function ProPlus(plans: seq<Plan>): (r: Option<nat>)
    ensures r.Some? ==> r.value < |plans| && plans[r.value].name == ProPlusName
    ensures r.None? <==> forall j :: 0 <= j < |plans| ==> plans[j].name != ProPlusName
  {
    FirstIndex(plans, (p: Plan) => p.name == ProPlusName)
  }

  /** `filter(Plan.price == 0).first()`: unlike registration, the seeder
      does not ask the plan to be active. */
  function AnyFreePlan(plans: seq<Plan>): (r: Option<nat>)
    ensures r.Some? ==> r.value < |plans| && plans[r.value].price == 0
    ensures r.None? <==> forall j :: 0 <= j < |plans| ==> plans[j].price != 0
  {
    FirstIndex(plans, (p: Plan) => p.price == 0)
  }

  /** The admin's step of `run`. */
  function WithAdminSubscription(subs: seq<Subscription>, users: seq<User>, plans: seq<Plan>, now: int)
    : seq<Subscription>
  {
    match (UserByEmail(users, AdminEmail), ProPlus(plans))
    case (Some(a), Some(p)) => WithSeededSubscription(subs, users[a].id, plans[p].id, now)
    case _ => subs
  }

  /** The default user's step of `run`. */
  function WithDefaultSubscription(subs: seq<Subscription>, users: seq<User>, plans: seq<Plan>, now: int)
    : seq<Subscription>
  {
    match (UserByEmail(users, DefaultUserEmail), AnyFreePlan(plans))
    case (Some(u), Some(f)) => WithSeededSubscription(subs, users[u].id, plans[f].id, now)
    case _ => subs
  }

  /** The subscriptions table after `run`. */
  function SeededSubscriptions(subs: seq<Subscription>, users: seq<User>, plans: seq<Plan>, now: int)
    : seq<Subscription>
  {
    WithDefaultSubscription(WithAdminSubscription(subs, users, plans, now), users, plans, now)
  }

  /** Keeps what is already there: a seeded table starts with the old one. */
  lemma SeededExtends(subs: seq<Subscription>, users: seq<User>, plans: seq<Plan>, now: int)
    ensures var r := SeededSubscriptions(subs, users, plans, now);
      |subs| <= |r| <= |subs| + 2 && r[..|subs|] == subs
  {
    var mid := WithAdminSubscription(subs, users, plans, now);
    var r := SeededSubscriptions(subs, users, plans, now);
    assert mid[..|subs|] == subs;
    assert r[..|mid|] == mid;
    assert r[..|subs|] == mid[..|subs|];
  }

  /** After `run` the admin has a subscription for "Pro Plus" whenever both
      exist, and the default user one for the first free plan whenever both
      exist; when neither pair exists nothing is inserted. */
  lemma SeededSubscriptionsGrant(subs: seq<Subscription>, users: seq<User>, plans: seq<Plan>, now: int)
    ensures var r := SeededSubscriptions(subs, users, plans, now);
      && (UserByEmail(users, AdminEmail).Some? && ProPlus(plans).Some? ==>
            ExistingSubscription(r, users[UserByEmail(users, AdminEmail).value].id,
                                 plans[ProPlus(plans).value].id).Some?)
      && (UserByEmail(users, DefaultUserEmail).Some? && AnyFreePlan(plans).Some? ==>
            ExistingSubscription(r, users[UserByEmail(users, DefaultUserEmail).value].id,
                                 plans[AnyFreePlan(plans).value].id).Some?)
      && (((UserByEmail(users, AdminEmail).None? || ProPlus(plans).None?) &&
           (UserByEmail(users, DefaultUserEmail).None? || AnyFreePlan(plans).None?)) ==>
            r == subs)
  {
    var mid := WithAdminSubscription(subs, users, plans, now);
    var r := SeededSubscriptions(subs, users, plans, now);
    SeededExtends(subs, users, plans, now);
    assert r[..|mid|] == mid;
    if UserByEmail(users, AdminEmail).Some? && ProPlus(plans).Some? {
      var uid, pid := users[UserByEmail(users, AdminEmail).value].id, plans[ProPlus(plans).value].id;
      CreateSubscriptionTwice(subs, uid, pid, now, now);
      var k := ExistingSubscription(mid, uid, pid).value;
      assert r[k] == mid[k];
    }
    if UserByEmail(users, DefaultUserEmail).Some? && AnyFreePlan(plans).Some? {
      var uid, pid := users[UserByEmail(users, DefaultUserEmail).value].id, plans[AnyFreePlan(plans).value].id;
      CreateSubscriptionTwice(mid, uid, pid, now, now);
    }
  }

  /** A second run, at any time, adds no subscriptions. */
  lemma SeedSubscriptionsIdempotent(subs: seq<Subscription>, users: seq<User>, plans: seq<Plan>,
                                    first: int, second: int)
    ensures var once := SeededSubscriptions(subs, users, plans, first);
      SeededSubscriptions(once, users, plans, second) == once
  {
    var once := SeededSubscriptions(subs, users, plans, first);
    SeededSubscriptionsGrant(subs, users, plans, first);
    var a := WithAdminSubscription(once, users, plans, second);
    assert a == once;
  }

  /** `run` on a fresh database, after the plan and user seeders: the admin
      (key 1) gets "Pro Plus" (key 3) and the default user (key 2) gets
      "Free Tier" (key 1), both for 365 days. */
  lemma FirstStartSubscriptions(adminHash: string, userHash: string, now: int)
    ensures var users := SeededUsers([], adminHash, userHash, now);
      SeededSubscriptions([], users, DefaultPlans(now), now)
        == [NewSubscription(1, 1, 3, now, SeedPeriodDays), NewSubscription(2, 2, 1, now, SeedPeriodDays)]
  {
    var users := SeededUsers([], adminHash, userHash, now);
    var plans := DefaultPlans(now);
    FirstStartUsers(adminHash, userHash, now);
    FirstStartPlans(now);
    var mid := WithAdminSubscription([], users, plans, now);
    assert mid == [NewSubscription(1, 1, 3, now, SeedPeriodDays)];
    assert ExistingSubscription(mid, 2, 1).None?;
  }

  /** The user seeder on an empty table creates the admin (key 1), then the
      default user (key 2), and finds each under its e-mail. */
  lemma FirstStartUsers(adminHash: string, userHash: string, now: int)
    ensures var users := SeededUsers([], adminHash, userHash, now);
      && |users| == 2 && users[0].id == 1 && users[1].id == 2
      && UserByEmail(users, AdminEmail) == Some(0) && UserByEmail(users, DefaultUserEmail) == Some(1)
  {
    var admin := User(1, AdminEmail, adminHash, AdminRole, now);
    var user := User(2, DefaultUserEmail, userHash, UserRole, now);
    assert WithAccount([], AdminEmail, adminHash, AdminRole, now) == [admin];
    assert admin.email[0] != DefaultUserEmail[0];
    assert UserByEmail([admin], DefaultUserEmail).None?;
    var users := SeededUsers([], adminHash, userHash, now);
    assert users == [admin, user];
  }

  /** In the seeded catalogue "Pro Plus" is the plan with key 3 and the first
      free plan the one with key 1. */
  lemma FirstStartPlans(now: int)
    ensures var plans := DefaultPlans(now);
      && ProPlus(plans) == Some(2) && AnyFreePlan(plans) == Some(0)
      && plans[2].id == 3 && plans[0].id == 1
  {
    var plans := DefaultPlans(now);
    assert plans[0].name[0] != ProPlusName[0] && plans[1].name[4] != ProPlusName[4];
    assert plans[2].name == ProPlusName;
  }

  /** `SubscriptionSeeder.run` */
  method SeedSubscriptions(db: Db, now: int)
    requires db.Valid()
    modifies db
    ensures db.Valid()
    ensures db.subs == SeededSubscriptions(old(db.subs), old(db.users), old(db.plans), now)
    ensures db.users == old(db.users) && db.plans == old(db.plans) && db.payments == old(db.payments)
    ensures db.messages == old(db.messages) && db.usage == old(db.usage)
  {
    var subs := SeedAdmin(db, db.subs, now);
    subs := SeedDefaultUser(db, subs, now);
    db.subs := subs;
  }

  /** The admin's step of `run`, on the subscriptions table being built. */
  method SeedAdmin(db: Db, subs: seq<Subscription>, now: int) returns (r: seq<Subscription>)
    requires TablesValid(db.users, db.plans, subs, db.payments, db.messages, db.usage)
    ensures r == WithAdminSubscription(subs, db.users, db.plans, now)
    ensures TablesValid(db.users, db.plans, r, db.payments, db.messages, db.usage)
  {
    r := subs;
    var admin, proPlus := UserByEmail(db.users, AdminEmail), ProPlus(db.plans);
    if admin.Some? && proPlus.Some? {
      r := CreateSubscription(db, subs, db.users[admin.value], db.plans[proPlus.value], now);
    }
  }

  /** The default user's step of `run`, on the subscriptions table being built. */
  method SeedDefaultUser(db: Db, subs: seq<Subscription>, now: int) returns (r: seq<Subscription>)
    requires TablesValid(db.users, db.plans, subs, db.payments, db.messages, db.usage)
    ensures r == WithDefaultSubscription(subs, db.users, db.plans, now)
    ensures TablesValid(db.users, db.plans, r, db.payments, db.messages, db.usage)
  {
    r := subs;
    var defaultUser, freePlan := UserByEmail(db.users, DefaultUserEmail), AnyFreePlan(db.plans);
    if defaultUser.Some? && freePlan.Some? {
      r := CreateSubscription(db, subs, db.users[defaultUser.value], db.plans[freePlan.value], now);
    }
  }

  /** `create_subscription`, on the subscriptions table being built. */
  method CreateSubscription(db: Db, subs: seq<Subscription>, user: User, plan: Plan, now: int)
    returns (r: seq<Subscription>)
    requires TablesValid(db.users, db.plans, subs, db.payments, db.messages, db.usage)
    requires user in db.users && plan in db.plans
    ensures r == WithSeededSubscription(subs, user.id, plan.id, now)
    ensures TablesValid(db.users, db.plans, r, db.payments, db.messages, db.usage)
  {
    r := subs;
    if ExistingSubscription(subs, user.id, plan.id).None? {
      r := subs + [NewSubscription(|subs| + 1, user.id, plan.id, now, SeedPeriodDays)];
    }
  }
}
