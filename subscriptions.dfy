/** The subscription router: the caller's current subscription with its
    remaining allowance (`my_subscription`) and cancellation
    (`cancel_subscription`). */
module Subscriptions {
  import opened Records
  import opened Database

  /** What `/subscription/me` answers. */
  datatype SubscriptionInfo =
    | NoActiveSubscription
    | ActiveSubscription(planId: int, planName: string, price: int, currency: string,
                         tokensPerMonth: int, usedTokens: int, remainingTokens: int,
                         endDate: Option<int>, isExpired: bool)

  /** `max(tokens_per_month - used_tokens, 0)` */
  function Remaining(tokensPerMonth: int, usedTokens: int): (r: int)
    ensures r >= 0
    ensures r >= tokensPerMonth - usedTokens
    ensures r == 0 || r == tokensPerMonth - usedTokens
  {
    if tokensPerMonth - usedTokens > 0 then tokensPerMonth - usedTokens else 0
  }

  /** A subscription has expired when it has an end date earlier than `now`. */
  predicate IsExpired(endDate: Option<int>, now: int) {
    match endDate
    case None => false
    case Some(end) => end < now
  }

  /** `my_subscription`: the user's active subscription with the latest start
      date, reported with its plan's details and the tokens left. The plan
      lookup cannot fail in a database whose foreign keys hold; if it did, the
      endpoint would fail with HTTP 500. */
  function MySubscription(subs: seq<Subscription>, plans: seq<Plan>, userId: int, now: int)
    : (r: Result<SubscriptionInfo>)
    ensures r == Ok(NoActiveSubscription) <==> forall j :: 0 <= j < |subs| ==> !IsActiveOf(subs[j], userId)
    ensures r.Ok? && r.value.ActiveSubscription? ==>
      && LatestActive(subs, userId).Some?
      && var sub := subs[LatestActive(subs, userId).value];
         && PlanById(plans, sub.planId).Some?
         && var plan := plans[PlanById(plans, sub.planId).value];
            && r.value.planId == plan.id == sub.planId && r.value.planName == plan.name
            && r.value.price == plan.price && r.value.currency == plan.currency
            && r.value.tokensPerMonth == plan.tokensPerMonth && r.value.usedTokens == sub.usedTokens
            && r.value.remainingTokens >= 0
            && r.value.remainingTokens == Remaining(plan.tokensPerMonth, sub.usedTokens)
            && r.value.endDate == sub.endDate
            && (r.value.isExpired <==> sub.endDate.Some? && sub.endDate.value < now)
    ensures PlanIdsArePositions(plans) && (forall j :: 0 <= j < |subs| ==> 1 <= subs[j].planId <= |plans|) ==>
      r.Ok?
  {
    match LatestActive(subs, userId)
    case None => Ok(NoActiveSubscription)
    case Some(k) =>
      var sub := subs[k];
      PlanByIdAtPositionIf(plans, sub.planId);
      match PlanById(plans, sub.planId)
      case None => Err(ServerError)
      case Some(p) =>
        var plan := plans[p];
        Ok(ActiveSubscription(plan.id, plan.name, plan.price, plan.currency, plan.tokensPerMonth,
                              sub.usedTokens, Remaining(plan.tokensPerMonth, sub.usedTokens),
                              sub.endDate, IsExpired(sub.endDate, now)))
  }

  /** `cancel_subscription`: the user's first active subscription becomes
      "cancelled"; with none, the answer is 404. Nothing else changes. */
  method CancelSubscription(db: Db, userId: int) returns (r: Result<()>)
    requires db.Valid()
    modifies db
    ensures db.Valid()
    ensures db.users == old(db.users) && db.plans == old(db.plans) && db.payments == old(db.payments)
    ensures db.messages == old(db.messages) && db.usage == old(db.usage)
    ensures FirstActive(old(db.subs), userId).None? ==> r == Err(NotFound) && db.subs == old(db.subs)
    ensures FirstActive(old(db.subs), userId).Some? ==>
      var k := FirstActive(old(db.subs), userId).value;
      r == Ok(()) && db.subs == old(db.subs)[k := old(db.subs)[k].(status := Cancelled)]
  {
    var found := FirstActive(db.subs, userId);
    if found.None? {
      return Err(NotFound);
    }
    var k := found.value;
    var cancelled := db.subs[k].(status := Cancelled);
    SubscriptionUpdateKeepsValid(db.users, db.plans, db.subs, db.payments, db.messages, db.usage, k, cancelled);
    db.subs := db.subs[k := cancelled];
    r := Ok(());
  }

  /** Cancelling changes exactly one of the user's active subscriptions: it
      is the user's, it was active and is now cancelled, and every other row
      is as before. */
  lemma CancelChangesOneRow(subs: seq<Subscription>, userId: int)
    requires FirstActive(subs, userId).Some?
    ensures var k := FirstActive(subs, userId).value;
            var after := subs[k := subs[k].(status := Cancelled)];
      && |after| == |subs|
      && IsActiveOf(subs[k], userId) && after[k].status == Cancelled && after[k].userId == userId
      && (forall j :: 0 <= j < |subs| && j != k ==> after[j] == subs[j])
  {
  }
}
